/**
 * The admin panel's handlers (components/AdminPanel.tsx). The component's state hooks
 * become the fields of `Editor`; the form inputs' `onChange` handlers are plain
 * assignments to those fields. The catalog, categories and neighborhoods are the
 * component's props: each handler receives the current collection and returns the
 * value it hands to the matching `onUpdate*` callback, `None` when it does not call it.
 */
module AdminPanel {
  import opened Wrappers
  import opened Types
  import opened Text
  import opened Collections
  import opened Catalog

  /** The product form's mode: creating a new product, or editing the product with that id. */
  datatype Mode = Creating | Editing(id: string)

  /** The shortest password the panel accepts, in UTF-16 code units. */
  const MIN_PASSWORD_LENGTH := 4

  class Editor {
    /** `editingProductId`: the product being edited, if any (`null` is `None`). */
    var editingProductId: Option<string>
    /** `newProduct`: the product form. */
    var draft: Draft
    /** The option sub-editor's name and price fields; `None` is the empty price field. */
    var tempOptionName: string
    var tempOptionPrice: Option<int>
    var newCategoryName: string
    var editingCategoryId: Option<string>
    var editingCategoryName: string
    var newNeighborhood: NeighborhoodForm
    var tempWhatsApp: string
    var newPassword: string

    /**
     * The form's mode as the source tests it, `if (editingProductId)`: an empty id is falsy,
     * so a product whose id is "" is never edited in place.
     */
    function CurrentMode(): (m: Mode)
      reads this
      ensures m.Editing? <==> editingProductId.Some? && editingProductId.value != ""
      ensures m.Editing? ==> m.id == editingProductId.value
    {
      match editingProductId
      case Some(id) => if id != "" then Editing(id) else Creating
      case None => Creating
    }

    /** The panel as it mounts: every form empty, the WhatsApp field showing the current number. */
    constructor(whatsappNumber: string)
      ensures CurrentMode() == Creating && editingProductId == None && draft == BLANK_DRAFT
      ensures tempOptionName == "" && tempOptionPrice == None
      ensures newCategoryName == "" && editingCategoryId == None && editingCategoryName == ""
      ensures newNeighborhood == BLANK_NEIGHBORHOOD
      ensures tempWhatsApp == whatsappNumber && newPassword == ""
    {
      editingProductId := None;
      draft := BLANK_DRAFT;
      tempOptionName, tempOptionPrice := "", None;
      newCategoryName, editingCategoryId, editingCategoryName := "", None, "";
      newNeighborhood := BLANK_NEIGHBORHOOD;
      tempWhatsApp, newPassword := whatsappNumber, "";
    }

    /**
     * `handleSaveProduct`. A draft without name, price or category is kept for correction
     * and nothing is handed on. Otherwise, in edit mode, every product with the edited id
     * becomes the draft (under that id) and the form leaves edit mode; in create mode the
     * draft, under the fresh id, goes in front of the catalog. Either way the form is cleared.
     */
    method SaveProduct(products: seq<Product>, freshId: string) returns (update: Option<seq<Product>>)
      requires CurrentMode() == Creating ==> FreshProductId(products, freshId)
      modifies this`editingProductId, this`draft
      ensures !Savable(old(draft)) ==> update == None && unchanged(this)
      ensures Savable(old(draft)) && old(CurrentMode()).Editing? ==>
        update == Some(UpdateProduct(products, old(CurrentMode()).id, old(draft))) && editingProductId == None
      ensures Savable(old(draft)) && old(CurrentMode()) == Creating ==>
        update == Some([ToProduct(old(draft), freshId)] + products) && editingProductId == old(editingProductId)
      ensures Savable(old(draft)) ==> draft == BLANK_DRAFT && CurrentMode() == Creating
      ensures update.Some? && UniqueKeys(products, ProductId) ==> UniqueKeys(update.value, ProductId)
    {
      if !Savable(draft) {
        return None;
      }
      match CurrentMode() {
        case Editing(id) =>
          update := Some(UpdateProduct(products, id, draft));
          ReplaceKeyKeepsKeys(products, ProductId, id, ToProduct(draft, id));
          editingProductId := None;
        case Creating =>
          update := Some([ToProduct(draft, freshId)] + products);
          if UniqueKeys(products, ProductId) {
            CreateKeepsUniqueIds(products, draft, freshId);
          }
      }
      draft := BLANK_DRAFT;
    }

    /**
     * `handleAddOption`. A blank option name does nothing. Otherwise the option built from the
     * two fields is appended after the draft's existing options and both fields are cleared.
     */
    method AddOption()
      modifies this`draft, this`tempOptionName, this`tempOptionPrice
      ensures OptionFromInput(old(tempOptionName), old(tempOptionPrice)).None? ==> unchanged(this)
      ensures OptionFromInput(old(tempOptionName), old(tempOptionPrice)).Some? ==>
        draft == old(draft).(options := old(draft.options) + [OptionFromInput(old(tempOptionName), old(tempOptionPrice)).value])
      ensures OptionFromInput(old(tempOptionName), old(tempOptionPrice)).Some? ==>
        tempOptionName == "" && tempOptionPrice == None
    {
      var option := OptionFromInput(tempOptionName, tempOptionPrice);
      if option.None? {
        return;
      }
      var options := draft.options + [option.value];
      draft := draft.(options := options);
      tempOptionName, tempOptionPrice := "", None;
    }

    /** `handleRemoveOption(index)`: the draft's options lose the one at `index`; nothing else changes. */
    method RemoveOption(index: int)
      modifies this`draft
      ensures draft == old(draft).(options := SpliceOne(old(draft.options), index))
    {
      draft := draft.(options := SpliceOne(draft.options, index));
    }

    /** `startEditProduct`: the form is loaded with a copy of the product and bound to its id. */
    method StartEditProduct(p: Product)
      modifies this`draft, this`editingProductId
      ensures draft == DraftOf(p) && editingProductId == Some(p.id)
      ensures p.id != "" ==> CurrentMode() == Editing(p.id)
    {
      draft := DraftOf(p);
      editingProductId := Some(p.id);
    }

    /** `cancelEditProduct`: back to create mode with a blank form. */
    method CancelEditProduct()
      modifies this`draft, this`editingProductId
      ensures draft == BLANK_DRAFT && editingProductId == None && CurrentMode() == Creating
    {
      editingProductId := None;
      draft := BLANK_DRAFT;
    }

    /** `handleAddCategory`: appends the trimmed name under a fresh id and clears the field; a blank name does nothing. */
    method AddCategory(categories: seq<Category>, freshId: string) returns (update: Option<seq<Category>>)
      requires !HasKey(categories, CategoryId, freshId)
      modifies this`newCategoryName
      ensures update == AddCategoryTo(categories, old(newCategoryName), freshId)
      ensures update.None? ==> unchanged(this)
      ensures update.Some? ==> newCategoryName == ""
      ensures update.Some? && UniqueKeys(categories, CategoryId) ==> UniqueKeys(update.value, CategoryId)
    {
      update := AddCategoryTo(categories, newCategoryName, freshId);
      if update.None? {
        return;
      }
      if UniqueKeys(categories, CategoryId) {
        AppendFreshKeepsUnique(categories, CategoryId, Category(freshId, Trim(newCategoryName)));
      }
      newCategoryName := "";
    }

    /** The pencil button next to a category: opens the rename field on its current name. */
    method StartRenameCategory(c: Category)
      modifies this`editingCategoryId, this`editingCategoryName
      ensures editingCategoryId == Some(c.id) && editingCategoryName == c.name
    {
      editingCategoryId, editingCategoryName := Some(c.id), c.name;
    }

    /** The cancel button of the rename field: closes it, leaving the typed name behind. */
    method CancelRenameCategory()
      modifies this`editingCategoryId
      ensures editingCategoryId == None
    {
      editingCategoryId := None;
    }

    /**
     * `handleRenameCategory(id)`. Nothing happens when no category has the id or the new name is
     * blank. Otherwise the category with that id takes the trimmed name and, using the name the
     * first such category had before, every product filed under the old name moves to the new
     * one; the rename field is closed and cleared.
     */
    method RenameCategory(id: string, categories: seq<Category>, products: seq<Product>)
      returns (categoryUpdate: Option<seq<Category>>, productUpdate: Option<seq<Product>>)
      modifies this`editingCategoryId, this`editingCategoryName
      ensures var found := FindByKey(categories, CategoryId, id);
        if found.None? || Trim(old(editingCategoryName)) == "" then
          categoryUpdate == None && productUpdate == None && unchanged(this)
        else
          var newName := Trim(old(editingCategoryName));
          categoryUpdate == Some(RenameCategoryIn(categories, id, newName))
          && productUpdate == Some(Recategorize(products, found.value.name, newName))
          && editingCategoryId == None && editingCategoryName == ""
    {
      var oldCategory := FindByKey(categories, CategoryId, id);
      var newName := Trim(editingCategoryName);
      if oldCategory.None? || newName == "" {
        return None, None;
      }
      categoryUpdate := Some(RenameCategoryIn(categories, id, newName));
      productUpdate := Some(Recategorize(products, oldCategory.value.name, newName));
      editingCategoryId, editingCategoryName := None, "";
    }

    /** The "add neighborhood" button: appends the form under a fresh id and resets it; an empty name does nothing. */
    method AddNeighborhood(neighborhoods: seq<Neighborhood>, freshId: string) returns (update: Option<seq<Neighborhood>>)
      requires !HasKey(neighborhoods, NeighborhoodId, freshId)
      modifies this`newNeighborhood
      ensures update == AddNeighborhoodTo(neighborhoods, old(newNeighborhood), freshId)
      ensures update.None? ==> unchanged(this)
      ensures update.Some? ==> newNeighborhood == BLANK_NEIGHBORHOOD
      ensures update.Some? && UniqueKeys(neighborhoods, NeighborhoodId) ==> UniqueKeys(update.value, NeighborhoodId)
    {
      update := AddNeighborhoodTo(neighborhoods, newNeighborhood, freshId);
      if update.None? {
        return;
      }
      if UniqueKeys(neighborhoods, NeighborhoodId) {
        AppendFreshKeepsUnique(neighborhoods, NeighborhoodId, Neighborhood(freshId, newNeighborhood.name, newNeighborhood.fee));
      }
      newNeighborhood := BLANK_NEIGHBORHOOD;
    }

    /** The "update WhatsApp" button: hands the field's text on as it is, without any check. */
    method UpdateWhatsApp() returns (update: string)
      ensures update == tempWhatsApp
    {
      update := tempWhatsApp;
    }

    /**
     * `handleUpdatePassword`: a password shorter than four UTF-16 code units is refused and
     * nothing changes; a longer one is handed on unchanged and the field is cleared.
     */
    method UpdatePassword() returns (update: Option<string>)
      modifies this`newPassword
      ensures Utf16Length(old(newPassword)) < MIN_PASSWORD_LENGTH ==> update == None && unchanged(this)
      ensures Utf16Length(old(newPassword)) >= MIN_PASSWORD_LENGTH ==> update == Some(old(newPassword)) && newPassword == ""
    {
      if Utf16Length(newPassword) < MIN_PASSWORD_LENGTH {
        return None;
      }
      update := Some(newPassword);
      newPassword := "";
    }
  }

  /**
   * The password rule in characters: a password of characters from the Basic Multilingual
   * Plane passes exactly when it has at least four of them.
   */
  lemma PasswordRuleOnBmpText(password: string)
    requires forall k :: 0 <= k < |password| ==> password[k] as int < 0x1_0000
    ensures Utf16Length(password) >= MIN_PASSWORD_LENGTH <==> |password| >= 4
  {
  }
}
