/**
 * The admin panel's pure side (components/AdminPanel.tsx): the product draft the
 * form edits, and every new collection the panel computes before handing it to
 * its `onUpdate*` callback. Each is a whole new sequence built from the old one.
 */
module Catalog {
  import opened Wrappers
  import opened Types
  import opened Text
  import opened Collections

  /** The image a blank product form starts with. */
  const PLACEHOLDER_IMAGE := "https://images.unsplash.com/photo-1578985545062-69928b1d9587?auto=format&fit=crop&w=400"

  /**
   * The product form's contents (`newProduct`). Its options list is always present:
   * the blank form starts with `[]` and starting an edit fills in `product.options || []`.
   * It carries no id: the id is chosen when the draft is saved.
   */
  datatype Draft = Draft(
    name: string,
    description: string,
    price: int,
    category: string,
    image: string,
    options: seq<ProductOption>)

  const BLANK_DRAFT := Draft("", "", 0, "", PLACEHOLDER_IMAGE, [])

  /**
   * The save guard `!name || !price || !category` negated: a name, a truthy price and a category.
   * A number is falsy only at 0 (NaN is not modelled), so negative prices pass.
   */
  predicate Savable(d: Draft)
    ensures Savable(d) ==> d.name != "" && d.category != "" && d.price != 0
    ensures d.name != "" && d.category != "" && d.price < 0 ==> Savable(d)
  {
    d.name != "" && d.price != 0 && d.category != ""
  }

  /** The form contents when editing `p` starts: a copy of `p` with an absent option list read as empty. */
  function DraftOf(p: Product): (d: Draft)
    ensures d.name == p.name && d.description == p.description && d.price == p.price
    ensures d.category == p.category && d.image == p.image && d.options == OptionsOf(p)
  {
    Draft(p.name, p.description, p.price, p.category, p.image, OptionsOf(p))
  }

  /** `{ ...newProduct, id }`: the product a save commits, the draft's fields under the given id. */
  function ToProduct(d: Draft, id: string): (p: Product)
    ensures p.id == id && p.options.Some?
    ensures DraftOf(p) == d
  {
    Product(id, d.name, d.description, d.price, d.category, d.image, Some(d.options))
  }

  /** Copying a product into the form and saving it under its own id gives the product back, once its option list is present. */
  lemma DraftRoundTrip(p: Product)
    requires p.options.Some?
    ensures ToProduct(DraftOf(p), p.id) == p
  {
  }

  /** The blank form can never be saved: its name, price and category are all empty. */
  lemma BlankDraftNotSavable()
    ensures !Savable(BLANK_DRAFT) && BLANK_DRAFT.options == []
  {
  }

  // ---------------------------------------------------------------------------------------
  // Products

  /** `id` is usable for a new record: no product carries it, and it is truthy. */
  ghost predicate FreshProductId(products: seq<Product>, id: string) {
    id != "" && !HasKey(products, ProductId, id)
  }

  /**
   * Saving in edit mode: `products.map(p => p.id === id ? productData : p)`. The length and
   * every id stay as they were; each product with that id becomes the draft, the rest are untouched.
   */
  function UpdateProduct(products: seq<Product>, id: string, d: Draft): (r: seq<Product>)
    ensures |r| == |products|
    ensures forall i :: 0 <= i < |r| ==> r[i].id == products[i].id
    ensures forall i :: 0 <= i < |r| ==>
      r[i] == if products[i].id == id then ToProduct(d, id) else products[i]
  {
    ReplaceKey(products, ProductId, id, ToProduct(d, id))
  }

  /** With unique ids, an edit rewrites the one product with that id, in place. */
  lemma UpdateProductInPlace(products: seq<Product>, j: nat, d: Draft)
    requires UniqueKeys(products, ProductId) && j < |products|
    ensures UpdateProduct(products, products[j].id, d) == products[j := ToProduct(d, products[j].id)]
    ensures UniqueKeys(UpdateProduct(products, products[j].id, d), ProductId)
  {
    ReplaceKeyAt(products, ProductId, j, ToProduct(d, products[j].id));
  }

  /** Saving an edit after its product was deleted changes nothing: the edit is dropped. */
  lemma UpdateProductMissing(products: seq<Product>, id: string, d: Draft)
    requires forall p :: p in products ==> p.id != id
    ensures UpdateProduct(products, id, d) == products
  {
    assert !HasKey(products, ProductId, id) by {
      forall i | 0 <= i < |products| ensures ProductId(products[i]) != id { assert products[i] in products; }
    }
    ReplaceKeyAbsent(products, ProductId, id, ToProduct(d, id));
  }

  /** Starting to edit a product and saving without changes leaves the catalog as it was. */
  lemma EditWithoutChanges(products: seq<Product>, j: nat)
    requires UniqueKeys(products, ProductId) && j < |products| && products[j].options.Some?
    ensures UpdateProduct(products, products[j].id, DraftOf(products[j])) == products
  {
    UpdateProductInPlace(products, j, DraftOf(products[j]));
    DraftRoundTrip(products[j]);
  }

  /** Saving in create mode, `[productData, ...products]`, keeps ids unique when the new id is fresh. */
  lemma CreateKeepsUniqueIds(products: seq<Product>, d: Draft, id: string)
    requires UniqueKeys(products, ProductId) && FreshProductId(products, id)
    ensures UniqueKeys([ToProduct(d, id)] + products, ProductId)
  {
    var r := [ToProduct(d, id)] + products;
    forall i, j | 0 <= i < j < |r| ensures ProductId(r[i]) != ProductId(r[j]) {
      assert r[j] == products[j - 1];
      if i > 0 { assert r[i] == products[i - 1]; }
    }
  }

  /** Deleting a product: `products.filter(item => item.id !== id)`. */
  function DeleteProduct(products: seq<Product>, id: string): (r: seq<Product>)
    ensures forall p :: p in r <==> p in products && p.id != id
    ensures UniqueKeys(products, ProductId) ==> UniqueKeys(r, ProductId)
  {
    WithoutKeyKeepsUnique(products, ProductId, id);
    WithoutKeyMembersAll(products, ProductId, id);
    WithoutKey(products, ProductId, id)
  }

  // ---------------------------------------------------------------------------------------
  // Categories

  /** The names products may refer to. */
  function CategoryNames(categories: seq<Category>): (names: set<string>)
    ensures forall c :: c in categories ==> c.name in names
    ensures forall n :: n in names ==> exists c :: c in categories && c.name == n
  {
    set c | c in categories :: c.name
  }

  /** Every product names a category that exists. */
  ghost predicate ReferencesResolve(products: seq<Product>, categories: seq<Category>) {
    forall p :: p in products ==> p.category in CategoryNames(categories)
  }

  /** Renaming a category: `categories.map(c => c.id === id ? { ...c, name } : c)`. */
  function RenameCategoryIn(categories: seq<Category>, id: string, name: string): (r: seq<Category>)
    ensures |r| == |categories|
    ensures forall i :: 0 <= i < |r| ==> r[i].id == categories[i].id
    ensures forall i :: 0 <= i < |r| ==>
      r[i].name == if categories[i].id == id then name else categories[i].name
  {
    ReplaceKey(categories, CategoryId, id, Category(id, name))
  }

  /**
   * The rename cascade: `products.map(p => p.category === oldName ? { ...p, category: newName } : p)`.
   * Only the category field of the products filed under `oldName` changes.
   */
  function Recategorize(products: seq<Product>, oldName: string, newName: string): (r: seq<Product>)
    ensures |r| == |products|
    ensures forall i :: 0 <= i < |r| ==>
      r[i] == if products[i].category == oldName then products[i].(category := newName) else products[i]
  {
    if products == [] then []
    else
      var p := products[0];
      [if p.category == oldName then p.(category := newName) else p] + Recategorize(products[1..], oldName, newName)
  }

  /** How many products are filed under `name`. */
  function CountInCategory(products: seq<Product>, name: string): (n: nat)
    ensures n <= |products|
    ensures n == 0 <==> forall p :: p in products ==> p.category != name
  {
    if products == [] then 0
    else (if products[0].category == name then 1 else 0) + CountInCategory(products[1..], name)
  }

  /**
   * After renaming A to B (A != B) no product is filed under A, and B holds exactly the
   * products that were under A plus those already under B.
   */
  lemma {:induction false} RecategorizeCounts(products: seq<Product>, a: string, b: string)
    requires a != b
    ensures CountInCategory(Recategorize(products, a, b), a) == 0
    ensures CountInCategory(Recategorize(products, a, b), b)
         == CountInCategory(products, a) + CountInCategory(products, b)
  {
    if products != [] {
      var r := Recategorize(products, a, b);
      assert r[1..] == Recategorize(products[1..], a, b);
      RecategorizeCounts(products[1..], a, b);
    }
  }

  /** Renaming a category to its own name leaves the products as they were. */
  lemma RecategorizeSameName(products: seq<Product>, a: string)
    ensures Recategorize(products, a, a) == products
  {
    var r := Recategorize(products, a, a);
    assert forall i :: 0 <= i < |r| ==> r[i] == products[i];
  }

  /**
   * The cascade keeps a product's category resolvable: when category ids are unique and the
   * products are rewritten with the name captured before the rename, a product that named an
   * existing category still does, whatever the other products name.
   */
  lemma RenameKeepsReference(products: seq<Product>, categories: seq<Category>, j: nat, newName: string, i: nat)
    requires UniqueKeys(categories, CategoryId) && j < |categories|
    requires i < |products| && products[i].category in CategoryNames(categories)
    ensures Recategorize(products, categories[j].name, newName)[i].category
      in CategoryNames(RenameCategoryIn(categories, categories[j].id, newName))
  {
    var oldName, id := categories[j].name, categories[j].id;
    var cs := RenameCategoryIn(categories, id, newName);
    if products[i].category == oldName {
      assert cs[j].name == newName;
    } else {
      var c :| c in categories && c.name == products[i].category;
      var k :| 0 <= k < |categories| && categories[k] == c;
      assert k != j;
      assert categories[k].id != id by { if k < j { } else { } }
      assert cs[k] == c;
    }
  }

  /** When every product names an existing category before a rename, every product still does afterwards. */
  lemma RenameKeepsReferences(products: seq<Product>, categories: seq<Category>, j: nat, newName: string)
    requires UniqueKeys(categories, CategoryId) && j < |categories|
    requires ReferencesResolve(products, categories)
    ensures ReferencesResolve(
      Recategorize(products, categories[j].name, newName),
      RenameCategoryIn(categories, categories[j].id, newName))
  {
    var ps := Recategorize(products, categories[j].name, newName);
    forall q | q in ps ensures q.category in CategoryNames(RenameCategoryIn(categories, categories[j].id, newName)) {
      var i :| 0 <= i < |ps| && ps[i] == q;
      assert products[i] in products;
      RenameKeepsReference(products, categories, j, newName, i);
    }
  }

  /** Deleting a category: `categories.filter(item => item.id !== id)`; the products are not consulted. */
  function DeleteCategory(categories: seq<Category>, id: string): (r: seq<Category>)
    ensures forall c :: c in r <==> c in categories && c.id != id
    ensures UniqueKeys(categories, CategoryId) ==> UniqueKeys(r, CategoryId)
  {
    WithoutKeyKeepsUnique(categories, CategoryId, id);
    WithoutKeyMembersAll(categories, CategoryId, id);
    WithoutKey(categories, CategoryId, id)
  }

  /**
   * Category deletion does not cascade: a product filed under the deleted category's name
   * keeps that name, which then resolves to no category, unless another category shares it.
   */
  lemma DeleteCategoryLeavesDangling(categories: seq<Category>, j: nat, p: Product)
    requires j < |categories| && p.category == categories[j].name
    requires forall c :: c in categories && c.name == p.category ==> c.id == categories[j].id
    ensures p.category !in CategoryNames(DeleteCategory(categories, categories[j].id))
  {
  }

  /** Adding a category: `[...categories, { id, name: trimmedName }]`, or nothing when the name is blank. */
  function AddCategoryTo(categories: seq<Category>, rawName: string, id: string): (r: Option<seq<Category>>)
    ensures r.None? <==> Trim(rawName) == ""
    ensures r.Some? ==> |r.value| == |categories| + 1 && r.value[..|categories|] == categories
    ensures r.Some? ==> r.value[|categories|] == Category(id, Trim(rawName))
    ensures r.Some? ==> r.value[|categories|].name != ""
  {
    var name := Trim(rawName);
    if name == "" then None else Some(categories + [Category(id, name)])
  }

  // ---------------------------------------------------------------------------------------
  // Neighborhoods

  /** The neighborhood form (`newNeighborhood`): a name and a fee, before an id is assigned. */
  datatype NeighborhoodForm = NeighborhoodForm(name: string, fee: int)

  const BLANK_NEIGHBORHOOD := NeighborhoodForm("", 0)

  /**
   * Adding a neighborhood: `[...neighborhoods, { ...form, id }]`, or nothing when the name is
   * empty. The name is not trimmed and the fee is not checked.
   */
  function AddNeighborhoodTo(neighborhoods: seq<Neighborhood>, form: NeighborhoodForm, id: string): (r: Option<seq<Neighborhood>>)
    ensures r.None? <==> form.name == ""
    ensures r.Some? ==> r.value == neighborhoods + [Neighborhood(id, form.name, form.fee)]
  {
    if form.name == "" then None else Some(neighborhoods + [Neighborhood(id, form.name, form.fee)])
  }

  /** Deleting a neighborhood: `neighborhoods.filter(item => item.id !== id)`. */
  function DeleteNeighborhood(neighborhoods: seq<Neighborhood>, id: string): (r: seq<Neighborhood>)
    ensures forall n :: n in r <==> n in neighborhoods && n.id != id
    ensures UniqueKeys(neighborhoods, NeighborhoodId) ==> UniqueKeys(r, NeighborhoodId)
  {
    WithoutKeyKeepsUnique(neighborhoods, NeighborhoodId, id);
    WithoutKeyMembersAll(neighborhoods, NeighborhoodId, id);
    WithoutKey(neighborhoods, NeighborhoodId, id)
  }

  // ---------------------------------------------------------------------------------------
  // Options

  /** An option name as the option editor produces it: non-empty and without surrounding whitespace. */
  predicate ValidOptionName(name: string) {
    name != "" && !IsWhitespace(name[0]) && !IsWhitespace(name[|name| - 1])
  }

  predicate ValidOptions(options: seq<ProductOption>) {
    forall o :: o in options ==> ValidOptionName(o.name)
  }

  /**
   * The option the editor builds from its two fields: `{ name: name.trim(), price }`, where an
   * empty price field stands for an absent price; nothing when the name is blank.
   */
  function OptionFromInput(rawName: string, price: Option<int>): (r: Option<ProductOption>)
    ensures r.None? <==> Trim(rawName) == ""
    ensures r.Some? ==> r.value.name == Trim(rawName) && ValidOptionName(r.value.name)
    ensures r.Some? ==> r.value.price == price
  {
    var name := Trim(rawName);
    if name == "" then None else Some(ProductOption(name, price))
  }

  /** Adding and removing options keeps every option name valid. */
  lemma OptionEditsKeepValid(options: seq<ProductOption>, rawName: string, price: Option<int>, index: int)
    requires ValidOptions(options)
    ensures OptionFromInput(rawName, price).Some? ==> ValidOptions(options + [OptionFromInput(rawName, price).value])
    ensures ValidOptions(SpliceOne(options, index))
  {
  }
}
