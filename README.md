# Storefront admin data store, modelled in Dafny

This project models the operator side of a small storefront: the admin panel that edits
the product catalog, categories, delivery neighborhoods, contact number and admin password,
and the persistence adapter that keeps them in the browser's `localStorage`.

- `types.dfy` (module `Types`): the domain records of `types.ts` as datatypes: `Product`
  (with an optional option list), `ProductOption` (with an optional price), `Category`,
  `Neighborhood` and `CartItem`. A product's `category` holds a category *name*, so it can
  dangle once that category is deleted.
- `text.dfy` (module `Text`): JavaScript's `trim()` over the ECMAScript whitespace set, and
  `length` counted in UTF-16 code units, both of which the panel's validation uses.
- `collections.dfy` (module `Collections`): the id-keyed array operations the new collections
  are built with: `filter` by id, `map` replacing by id, `find` by id and `splice(index, 1)`,
  generic in the record type through an id projection.
- `catalog.dfy` (module `Catalog`): the product draft and every collection the panel computes:
  create (prepend) and edit (replace by id) on save, delete by id for all three lists,
  category add and rename with its cascade onto the products, neighborhood add, and the
  option editor's option construction.
- `admin_panel.dfy` (module `AdminPanel`): class `Editor`, whose fields are the panel's state
  hooks and whose methods are its handlers. A handler receives the current collection (a prop)
  and returns the value it hands to its `onUpdate*` callback, `None` when it does not call it.
  The form has two modes, `Creating` and `Editing(id)`, decided by JavaScript truthiness of
  `editingProductId`.
- `storage.dfy` (module `Storage`): class `LocalStore`, a map from key to stored entry with the
  five getter/setter pairs, each getter falling back to a seed when its key is absent or empty.

Main results: a create-mode save puts the new product at index 0 in front of the unchanged
catalog, and an edit-mode save rewrites in place only the product with the edited id. Both keep
product ids unique. With unique ids, deleting by id removes exactly one element and keeps the
others in order. A rename to a different name moves every product of the old category to the new
name (none are left under the old name, and the counts add up); a rename to the same name,
as when the pre-filled field is confirmed unchanged, leaves the products as they were. With
unique category ids a rename also keeps every product's category resolvable. Every save leaves the other four getters as they were, and is read back by its own
getter, except that an empty WhatsApp number or password reads back as its fallback (the seed
number or "dev123").

Points of the code worth knowing, all modelled as written:
- A save rejects only a zero (falsy) price; the code accepts negative prices.
- A stored value that does not parse does not fall back to the seed; the getter's result is
  then `None`.
- The password rule counts UTF-16 code units, not characters.
- The neighborhood name is tested for emptiness without trimming.

## Model

| member | source | states |
|---|---|---|
| `Types.OptionsOf` | types.ts:14 | an absent option list reads as the empty list, a present one as itself |
| `Text.Trim` | components/AdminPanel.tsx:82 | the trimmed text is no longer than the input and neither starts nor ends with whitespace |
| `Text.TrimIsInfix` | components/AdminPanel.tsx:87 | the trimmed text is the infix of the input with only whitespace removed before and after it |
| `Text.TrimEmptyIff` | components/AdminPanel.tsx:82 | `!s.trim()` holds exactly when the input is whitespace only |
| `Text.TrimIdempotent` | components/AdminPanel.tsx:126 | trimming an already trimmed name changes nothing |
| `Text.Utf16Length` | components/AdminPanel.tsx:134 | `length` is between the character count and twice it, and equals the count exactly when every character is in the Basic Multilingual Plane |
| `Text.Utf16LengthChar` | components/AdminPanel.tsx:134 | one character is one code unit inside the Basic Multilingual Plane and two outside it |
| `Text.Utf16LengthAppend` | components/AdminPanel.tsx:134 | `length` of a concatenation is the sum of the lengths, so with the one-character case it is fixed for every text |
| `Collections.WithoutKey` | components/AdminPanel.tsx:261 | the filtered list is no longer than the input and no element left in it has the target id (which elements survive is stated by `WithoutKeyMembers`) |
| `Collections.WithoutKeyMembers` | components/AdminPanel.tsx:261 | an element is in the filtered list exactly when it is in the input and its id differs from the target |
| `Collections.WithoutKeyMembersAll` | components/AdminPanel.tsx:261 | the same membership equivalence, for every element at once |
| `Collections.WithoutKeyAppend` | components/AdminPanel.tsx:292 | filtering distributes over concatenation, so the survivors keep their original order |
| `Collections.WithoutKeyAbsent` | components/AdminPanel.tsx:316 | deleting an id nobody has leaves the list unchanged |
| `Collections.WithoutKeyAt` | components/AdminPanel.tsx:261 | with unique ids, deleting the id at index i yields `s[..i] + s[i+1..]` |
| `Collections.WithoutKeyKeepsUnique` | components/AdminPanel.tsx:292 | a delete keeps ids unique |
| `Collections.ReplaceKey` | components/AdminPanel.tsx:66 | the mapped list has the same length, the replacement wherever the id matched, every other element unchanged |
| `Collections.ReplaceKeyAt` | components/AdminPanel.tsx:66 | with unique ids, replacing by id is `s[j := v]` at the one index holding the id |
| `Collections.ReplaceKeyAbsent` | components/AdminPanel.tsx:66 | replacing an id nobody has changes nothing |
| `Collections.ReplaceKeyKeepsKeys` | components/AdminPanel.tsx:127 | a replacement carrying the replaced id leaves every position's id as it was, so uniqueness is kept |
| `Collections.FindByKey` | components/AdminPanel.tsx:124 | `find` returns nothing exactly when no element has the id, otherwise the first element that has it |
| `Collections.FindByKeyUnique` | components/AdminPanel.tsx:124 | with unique ids, `find` returns the one element with the id |
| `Collections.SpliceOne` | components/AdminPanel.tsx:97 | `splice(index, 1)` removes the element at a valid index, counts a negative index from the end, and removes nothing at or past the end |
| `Collections.SpliceOneAt` | components/AdminPanel.tsx:95-98 | removing a valid index shortens the list by one, keeps the elements before it, shifts the ones after it down by one, and loses only `s[i]` |
| `Catalog.Savable` | components/AdminPanel.tsx:55 | a draft passes the save guard only with a non-empty name, a non-empty category and a non-zero price; a negative price passes |
| `Catalog.DraftOf` | components/AdminPanel.tsx:102 | starting an edit copies every field of the product into the form, an absent option list as empty |
| `Catalog.ToProduct` | components/AdminPanel.tsx:60-63 | the saved product carries the given id and exactly the form's fields |
| `Catalog.DraftRoundTrip` | components/AdminPanel.tsx:60-63 | copying a product into the form and saving it under its own id gives the product back once its option list is present |
| `Catalog.BlankDraftNotSavable` | components/AdminPanel.tsx:74-78 | the reset form has empty name and category, price 0 and no options, so it cannot be saved |
| `Catalog.UpdateProduct` | components/AdminPanel.tsx:66 | an edit keeps the length and every id, puts the draft wherever the id matched and leaves the other products unchanged |
| `Catalog.UpdateProductInPlace` | components/AdminPanel.tsx:66 | with unique ids an edit rewrites the one matching product at its own index and keeps ids unique |
| `Catalog.UpdateProductMissing` | components/AdminPanel.tsx:66 | saving an edit whose product was deleted meanwhile leaves the catalog unchanged, so the edit is lost |
| `Catalog.EditWithoutChanges` | components/AdminPanel.tsx:101-105 | with unique product ids, editing a product whose option list is present and saving it unchanged leaves the catalog as it was (a product stored without options is saved back with an empty list) |
| `Catalog.CreateKeepsUniqueIds` | components/AdminPanel.tsx:70 | prepending a product under a fresh id keeps product ids unique |
| `Catalog.DeleteProduct` | components/AdminPanel.tsx:261 | deleting a product keeps exactly the products with another id and keeps ids unique |
| `Catalog.RenameCategoryIn` | components/AdminPanel.tsx:127 | a rename keeps the length and every id, and gives the new name to each category with the id and to no other |
| `Catalog.Recategorize` | components/AdminPanel.tsx:128 | the cascade moves exactly the products filed under the old name to the new name and leaves every other product unchanged |
| `Catalog.RecategorizeCounts` | components/AdminPanel.tsx:128 | after renaming A to a different B no product is under A, and B holds the products of A plus those already under B |
| `Catalog.RecategorizeSameName` | components/AdminPanel.tsx:128 | renaming a category to its own name leaves the products unchanged |
| `Catalog.RenameKeepsReference` | components/AdminPanel.tsx:123-128 | with unique category ids and the old name captured before the rename, a product that named an existing category still does afterwards, whatever the other products name |
| `Catalog.RenameKeepsReferences` | components/AdminPanel.tsx:123-128 | with unique category ids, when every product names an existing category before the rename, every product still does afterwards |
| `Catalog.DeleteCategory` | components/AdminPanel.tsx:292 | deleting a category keeps exactly the categories with another id and keeps ids unique; the products are not touched |
| `Catalog.DeleteCategoryLeavesDangling` | types.ts:12 | a product filed under a deleted category's name, shared by no other category, then names no category |
| `Catalog.AddCategoryTo` | components/AdminPanel.tsx:117-120 | a blank name adds nothing; otherwise exactly one category with the trimmed, non-empty name is appended after the unchanged list |
| `Catalog.AddNeighborhoodTo` | components/AdminPanel.tsx:310 | an empty name adds nothing; otherwise exactly the form's neighborhood under the new id is appended |
| `Catalog.DeleteNeighborhood` | components/AdminPanel.tsx:316 | deleting a neighborhood keeps exactly the neighborhoods with another id and keeps ids unique |
| `Collections.AppendFreshKeepsUnique` | components/AdminPanel.tsx:119 | appending a record under a fresh id keeps ids unique |
| `Catalog.OptionFromInput` | components/AdminPanel.tsx:82-89 | a blank name builds no option; otherwise the option has the trimmed name, which is non-empty with no surrounding whitespace, and the given price, absent exactly when the price field is empty |
| `Catalog.OptionEditsKeepValid` | components/AdminPanel.tsx:81-98 | adding or removing an option keeps every option name non-empty and trimmed |
| `AdminPanel.Editor.CurrentMode` | components/AdminPanel.tsx:65 | the form edits in place exactly when `editingProductId` is a non-empty string, and then edits that id |
| `AdminPanel.Editor.constructor` | components/AdminPanel.tsx:32-51 | the panel mounts in create mode with a blank form and empty fields, the WhatsApp field showing the current number |
| `AdminPanel.Editor.SaveProduct` | components/AdminPanel.tsx:54-79 | an unsavable draft changes nothing; an edit-mode save replaces by id and leaves edit mode; a create-mode save prepends the draft under the fresh id; every save clears the form, ends in create mode and keeps product ids unique |
| `AdminPanel.Editor.AddOption` | components/AdminPanel.tsx:81-93 | a blank option name changes nothing; otherwise one option is appended after the existing ones and both fields are cleared |
| `AdminPanel.Editor.RemoveOption` | components/AdminPanel.tsx:95-99 | only the options change, losing the one at the index |
| `AdminPanel.Editor.StartEditProduct` | components/AdminPanel.tsx:101-105 | the form holds the product's copy and is bound to its id |
| `AdminPanel.Editor.CancelEditProduct` | components/AdminPanel.tsx:107-114 | back to create mode with a blank form |
| `AdminPanel.Editor.AddCategory` | components/AdminPanel.tsx:117-121 | hands on the appended list or nothing for a blank name, clears the field only on success, keeps ids unique |
| `AdminPanel.Editor.StartRenameCategory` | components/AdminPanel.tsx:291 | opens the rename field on the category's id and current name |
| `AdminPanel.Editor.CancelRenameCategory` | components/AdminPanel.tsx:285 | closes the rename field |
| `AdminPanel.Editor.RenameCategory` | components/AdminPanel.tsx:123-131 | an unknown id or blank name hands on nothing; otherwise the renamed categories and the products recategorised from the old name captured by `find`, then the rename field is cleared |
| `AdminPanel.Editor.AddNeighborhood` | components/AdminPanel.tsx:310 | hands on the appended list or nothing for an empty name, resets the form only on success, keeps ids unique |
| `AdminPanel.Editor.UpdateWhatsApp` | components/AdminPanel.tsx:331 | hands on the field's text unconditionally |
| `AdminPanel.Editor.UpdatePassword` | components/AdminPanel.tsx:133-141 | a password under four UTF-16 code units changes nothing; otherwise it is handed on unchanged and the field is cleared |
| `AdminPanel.PasswordRuleOnBmpText` | components/AdminPanel.tsx:134 | for text in the Basic Multilingual Plane the rule is "at least four characters" |
| `Storage.Present` | services/storage.ts:13 | the truthiness test on `getItem`: an absent key and an empty text are falsy, any other text and every encoded list are truthy (the same test at lines 22, 31, 40 and 49) |
| `Storage.LoadProducts` | services/storage.ts:11-14 | an absent or empty entry gives the seed list, a saved list gives that list, anything else gives no value |
| `Storage.LoadNeighborhoods` | services/storage.ts:20-23 | an absent or empty entry gives the seed list, a saved list gives that list, anything else gives no value |
| `Storage.LoadCategories` | services/storage.ts:29-32 | an absent or empty entry gives the seed list, a saved list gives that list, anything else gives no value |
| `Storage.LoadSetting` | services/storage.ts:38-41 | an absent or empty entry gives the fallback, non-empty text gives that text |
| `Storage.WellFormedLoadsSucceed` | services/storage.ts:11-50 | when every key holds its own kind of entry, every getter returns a value |
| `Storage.EmptyStoreYieldsSeeds` | services/storage.ts:47-50 | an empty store reads back the seed lists, the seed number and the password "dev123" |
| `Storage.WriteKeepsOtherKeys` | services/storage.ts:5-9 | writing one of the five distinct keys leaves the other four getters' results unchanged |
| `Storage.LocalStore.GetStoredProducts` | services/storage.ts:11-14 | returns the products load of the current store, a value whenever the store is well formed |
| `Storage.LocalStore.SaveProducts` | services/storage.ts:16-18 | overwrites only the products key; the products read back as saved; well-formedness is kept |
| `Storage.LocalStore.GetStoredNeighborhoods` | services/storage.ts:20-23 | returns the neighborhoods load of the current store |
| `Storage.LocalStore.SaveNeighborhoods` | services/storage.ts:25-27 | overwrites only the neighborhoods key; they read back as saved |
| `Storage.LocalStore.GetStoredCategories` | services/storage.ts:29-32 | returns the categories load of the current store |
| `Storage.LocalStore.SaveCategories` | services/storage.ts:34-36 | overwrites only the categories key; they read back as saved |
| `Storage.LocalStore.GetStoredWhatsAppNumber` | services/storage.ts:38-41 | the saved number when non-empty, else the seed number |
| `Storage.LocalStore.SaveWhatsAppNumber` | services/storage.ts:43-45 | overwrites only the WhatsApp key; reads back as saved, or as the seed number for "" |
| `Storage.LocalStore.GetStoredAdminPassword` | services/storage.ts:47-50 | the saved password when non-empty, else "dev123"; never empty on a well-formed store |
| `Storage.LocalStore.SaveAdminPassword` | services/storage.ts:52-54 | overwrites only the password key; reads back as saved, or as "dev123" for "" |

## Left out

- JSX rendering, tabs, styling, `alert`, `confirm`, `window.scrollTo` and `handleExit`'s reload: browser and view effects. Deletions are modelled as confirmed.
- The input `onChange` handlers: they are plain assignments to the `Editor` fields.
- `Date.now()` ids: the id is a parameter (`freshId`). A new product's id must be non-empty and unused; a new category's or neighborhood's id must be unused. The source checks neither.
- `parseFloat`, `NaN` and `toFixed`: prices and fees are integers. A price of `NaN` (also rejected by `!price`) is not modelled.
- `JSON.stringify`/`JSON.parse` are a lossless encoding whose text form is not spelled out. A list key holding anything its own setter did not write reads as `None`: this covers text that would not parse or would parse to another shape (the source throws or returns that value), and also text such as `"[]"` that the source would parse into a valid list. A settings key holding a list also reads as `None`.
- The seed lists and the default WhatsApp number come from the shop's constants module, which is not part of this model; they are a `Seeds` value given to the store.
- The application component that connects the `onUpdate*` callbacks to the storage setters is not part of this model: each handler returns the value it would hand on.
- `splice` runs in place on a fresh copy of the options array. It is modelled as a function on sequences; the copy means no aliasing is lost.
- `OrderDetails`, `PaymentMethod` and `OrderType`: the modelled code does not use them.
- Write failures and storage quotas of `localStorage`.
