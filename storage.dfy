/**
 * The persistence adapter (services/storage.ts): five getter/setter pairs over the
 * browser's `localStorage`, one key each. The store is a map from key to stored entry.
 * `JSON.stringify` / `JSON.parse` are modelled as a lossless encoding: a saved list is
 * kept as that list, a saved setting as its text.
 */
module Storage {
  import opened Wrappers
  import opened Types

  const PRODUCTS_KEY := "app_products_v8"
  const NEIGHBORHOODS_KEY := "app_neighborhoods_v8"
  const CATEGORIES_KEY := "app_categories_v8"
  const WHATSAPP_KEY := "app_whatsapp_v8"
  const ADMIN_PWD_KEY := "app_admin_pwd_v8"

  /** The password the panel opens with when none was ever saved. */
  const DEFAULT_ADMIN_PASSWORD := "dev123"

  /**
   * What a key holds: plain text (the two settings, or anything another writer left there),
   * or the encoding of one of the three lists. An encoded list is never the empty string.
   */
  datatype Stored =
    | Plain(text: string)
    | ProductList(products: seq<Product>)
    | NeighborhoodList(neighborhoods: seq<Neighborhood>)
    | CategoryList(categories: seq<Category>)

  /** The built-in fallbacks of the shop's constants module, whose contents are not part of this model. */
  datatype Seeds = Seeds(
    products: seq<Product>,
    neighborhoods: seq<Neighborhood>,
    categories: seq<Category>,
    whatsappNumber: string)

  /**
   * `localStorage.getItem(key)` used as a condition: false when the key is absent (null) or holds "",
   * true for any other text and for every encoded list, whose text is never empty.
   */
  predicate Present(entries: map<string, Stored>, key: string)
    ensures key !in entries ==> !Present(entries, key)
    ensures key in entries && entries[key] == Plain("") ==> !Present(entries, key)
    ensures key in entries && !entries[key].Plain? ==> Present(entries, key)
    ensures key in entries && entries[key].Plain? && entries[key].text != "" ==> Present(entries, key)
  {
    key in entries && entries[key] != Plain("")
  }

  /**
   * `getStoredProducts`: the saved list, or the seed when nothing truthy is stored. `None` is any
   * non-empty entry that `saveProducts` did not write. The text of an encoded list is not spelled
   * out, so this includes text that `JSON.parse` would turn into a list, as well as text it would
   * reject or turn into another shape; the adapter has no fallback for the latter.
   */
  function LoadProducts(entries: map<string, Stored>, seed: seq<Product>): (r: Option<seq<Product>>)
    ensures !Present(entries, PRODUCTS_KEY) ==> r == Some(seed)
    ensures Present(entries, PRODUCTS_KEY) && entries[PRODUCTS_KEY].ProductList? ==>
      r == Some(entries[PRODUCTS_KEY].products)
    ensures r.None? <==> Present(entries, PRODUCTS_KEY) && !entries[PRODUCTS_KEY].ProductList?
  {
    if !Present(entries, PRODUCTS_KEY) then Some(seed)
    else match entries[PRODUCTS_KEY]
      case ProductList(ps) => Some(ps)
      case _ => None
  }

  /** `getStoredNeighborhoods`, in the same way. */
  function LoadNeighborhoods(entries: map<string, Stored>, seed: seq<Neighborhood>): (r: Option<seq<Neighborhood>>)
    ensures !Present(entries, NEIGHBORHOODS_KEY) ==> r == Some(seed)
    ensures Present(entries, NEIGHBORHOODS_KEY) && entries[NEIGHBORHOODS_KEY].NeighborhoodList? ==>
      r == Some(entries[NEIGHBORHOODS_KEY].neighborhoods)
    ensures r.None? <==> Present(entries, NEIGHBORHOODS_KEY) && !entries[NEIGHBORHOODS_KEY].NeighborhoodList?
  {
    if !Present(entries, NEIGHBORHOODS_KEY) then Some(seed)
    else match entries[NEIGHBORHOODS_KEY]
      case NeighborhoodList(ns) => Some(ns)
      case _ => None
  }

  /** `getStoredCategories`, in the same way. */
  function LoadCategories(entries: map<string, Stored>, seed: seq<Category>): (r: Option<seq<Category>>)
    ensures !Present(entries, CATEGORIES_KEY) ==> r == Some(seed)
    ensures Present(entries, CATEGORIES_KEY) && entries[CATEGORIES_KEY].CategoryList? ==>
      r == Some(entries[CATEGORIES_KEY].categories)
    ensures r.None? <==> Present(entries, CATEGORIES_KEY) && !entries[CATEGORIES_KEY].CategoryList?
  {
    if !Present(entries, CATEGORIES_KEY) then Some(seed)
    else match entries[CATEGORIES_KEY]
      case CategoryList(cs) => Some(cs)
      case _ => None
  }

  /**
   * A setting read as `stored || fallback`: the stored text when it is non-empty, the fallback
   * otherwise, so the result is never "" unless the fallback is. `None` is a key that holds an
   * encoded list, whose text this model does not spell out.
   */
  function LoadSetting(entries: map<string, Stored>, key: string, fallback: string): (r: Option<string>)
    ensures !Present(entries, key) ==> r == Some(fallback)
    ensures Present(entries, key) && entries[key].Plain? ==> r == Some(entries[key].text) && r.value != ""
    ensures r.None? <==> Present(entries, key) && !entries[key].Plain?
  {
    if !Present(entries, key) then Some(fallback)
    else match entries[key]
      case Plain(s) => Some(s)
      case _ => None
  }

  /** Each key holds an entry of its own kind, as only its own setter writes it. */
  predicate WellFormed(entries: map<string, Stored>) {
    (PRODUCTS_KEY in entries ==> entries[PRODUCTS_KEY].ProductList? || entries[PRODUCTS_KEY] == Plain(""))
    && (NEIGHBORHOODS_KEY in entries ==> entries[NEIGHBORHOODS_KEY].NeighborhoodList? || entries[NEIGHBORHOODS_KEY] == Plain(""))
    && (CATEGORIES_KEY in entries ==> entries[CATEGORIES_KEY].CategoryList? || entries[CATEGORIES_KEY] == Plain(""))
    && (WHATSAPP_KEY in entries ==> entries[WHATSAPP_KEY].Plain?)
    && (ADMIN_PWD_KEY in entries ==> entries[ADMIN_PWD_KEY].Plain?)
  }

  /** On a well-formed store every getter returns a value: a saved one or its fallback. */
  lemma WellFormedLoadsSucceed(entries: map<string, Stored>, seeds: Seeds)
    requires WellFormed(entries)
    ensures LoadProducts(entries, seeds.products).Some?
    ensures LoadNeighborhoods(entries, seeds.neighborhoods).Some?
    ensures LoadCategories(entries, seeds.categories).Some?
    ensures LoadSetting(entries, WHATSAPP_KEY, seeds.whatsappNumber).Some?
    ensures LoadSetting(entries, ADMIN_PWD_KEY, DEFAULT_ADMIN_PASSWORD).Some?
  {
  }

  /** An empty store reads back exactly the seeds and the default password. */
  lemma EmptyStoreYieldsSeeds(seeds: Seeds)
    ensures LoadProducts(map[], seeds.products) == Some(seeds.products)
    ensures LoadNeighborhoods(map[], seeds.neighborhoods) == Some(seeds.neighborhoods)
    ensures LoadCategories(map[], seeds.categories) == Some(seeds.categories)
    ensures LoadSetting(map[], WHATSAPP_KEY, seeds.whatsappNumber) == Some(seeds.whatsappNumber)
    ensures LoadSetting(map[], ADMIN_PWD_KEY, DEFAULT_ADMIN_PASSWORD) == Some("dev123")
  {
  }

  /**
   * Writing one of the five keys leaves what every other getter returns as it was: the five
   * keys are distinct.
   */
  lemma WriteKeepsOtherKeys(entries: map<string, Stored>, seeds: Seeds, key: string, v: Stored)
    requires key in {PRODUCTS_KEY, NEIGHBORHOODS_KEY, CATEGORIES_KEY, WHATSAPP_KEY, ADMIN_PWD_KEY}
    ensures var e := entries[key := v];
      (key != PRODUCTS_KEY ==> LoadProducts(e, seeds.products) == LoadProducts(entries, seeds.products))
      && (key != NEIGHBORHOODS_KEY ==> LoadNeighborhoods(e, seeds.neighborhoods) == LoadNeighborhoods(entries, seeds.neighborhoods))
      && (key != CATEGORIES_KEY ==> LoadCategories(e, seeds.categories) == LoadCategories(entries, seeds.categories))
      && (key != WHATSAPP_KEY ==> LoadSetting(e, WHATSAPP_KEY, seeds.whatsappNumber) == LoadSetting(entries, WHATSAPP_KEY, seeds.whatsappNumber))
      && (key != ADMIN_PWD_KEY ==> LoadSetting(e, ADMIN_PWD_KEY, DEFAULT_ADMIN_PASSWORD) == LoadSetting(entries, ADMIN_PWD_KEY, DEFAULT_ADMIN_PASSWORD))
  {
  }

  /** The device's `localStorage`, as the adapter sees it, with the seeds it falls back on. */
  class LocalStore {
    const seeds: Seeds
    var entries: map<string, Stored>

    /** The store as the app finds it on the device: whatever an earlier session left. */
    constructor(seeds: Seeds, entries: map<string, Stored>)
      ensures this.seeds == seeds && this.entries == entries
    {
      this.seeds := seeds;
      this.entries := entries;
    }

    method GetStoredProducts() returns (r: Option<seq<Product>>)
      ensures r == LoadProducts(entries, seeds.products)
      ensures WellFormed(entries) ==> r.Some?
    {
      r := LoadProducts(entries, seeds.products);
    }

    /** `saveProducts`: overwrites the products key; the next read returns `products`, the others read as before. */
    method SaveProducts(products: seq<Product>)
      modifies this
      ensures entries == old(entries)[PRODUCTS_KEY := ProductList(products)]
      ensures LoadProducts(entries, seeds.products) == Some(products)
      ensures old(WellFormed(entries)) ==> WellFormed(entries)
    {
      entries := entries[PRODUCTS_KEY := ProductList(products)];
    }

    method GetStoredNeighborhoods() returns (r: Option<seq<Neighborhood>>)
      ensures r == LoadNeighborhoods(entries, seeds.neighborhoods)
      ensures WellFormed(entries) ==> r.Some?
    {
      r := LoadNeighborhoods(entries, seeds.neighborhoods);
    }

    method SaveNeighborhoods(neighborhoods: seq<Neighborhood>)
      modifies this
      ensures entries == old(entries)[NEIGHBORHOODS_KEY := NeighborhoodList(neighborhoods)]
      ensures LoadNeighborhoods(entries, seeds.neighborhoods) == Some(neighborhoods)
      ensures old(WellFormed(entries)) ==> WellFormed(entries)
    {
      entries := entries[NEIGHBORHOODS_KEY := NeighborhoodList(neighborhoods)];
    }

    method GetStoredCategories() returns (r: Option<seq<Category>>)
      ensures r == LoadCategories(entries, seeds.categories)
      ensures WellFormed(entries) ==> r.Some?
    {
      r := LoadCategories(entries, seeds.categories);
    }

    method SaveCategories(categories: seq<Category>)
      modifies this
      ensures entries == old(entries)[CATEGORIES_KEY := CategoryList(categories)]
      ensures LoadCategories(entries, seeds.categories) == Some(categories)
      ensures old(WellFormed(entries)) ==> WellFormed(entries)
    {
      entries := entries[CATEGORIES_KEY := CategoryList(categories)];
    }

    /** `getStoredWhatsAppNumber`: the saved number when non-empty, else the seed number. */
    method GetStoredWhatsAppNumber() returns (r: Option<string>)
      ensures r == LoadSetting(entries, WHATSAPP_KEY, seeds.whatsappNumber)
      ensures WellFormed(entries) ==> r.Some?
    {
      r := LoadSetting(entries, WHATSAPP_KEY, seeds.whatsappNumber);
    }

    /** `saveWhatsAppNumber`: stores the text as given; "" reads back as the seed number. */
    method SaveWhatsAppNumber(number: string)
      modifies this
      ensures entries == old(entries)[WHATSAPP_KEY := Plain(number)]
      ensures LoadSetting(entries, WHATSAPP_KEY, seeds.whatsappNumber) == Some(if number == "" then seeds.whatsappNumber else number)
      ensures old(WellFormed(entries)) ==> WellFormed(entries)
    {
      entries := entries[WHATSAPP_KEY := Plain(number)];
    }

    /** `getStoredAdminPassword`: the saved password when non-empty, else "dev123". */
    method GetStoredAdminPassword() returns (r: Option<string>)
      ensures r == LoadSetting(entries, ADMIN_PWD_KEY, DEFAULT_ADMIN_PASSWORD)
      ensures WellFormed(entries) ==> r.Some? && r.value != ""
    {
      r := LoadSetting(entries, ADMIN_PWD_KEY, DEFAULT_ADMIN_PASSWORD);
    }

    /** `saveAdminPassword`: stores the password as given; "" reads back as "dev123". */
    method SaveAdminPassword(password: string)
      modifies this
      ensures entries == old(entries)[ADMIN_PWD_KEY := Plain(password)]
      ensures LoadSetting(entries, ADMIN_PWD_KEY, DEFAULT_ADMIN_PASSWORD) == Some(if password == "" then "dev123" else password)
      ensures old(WellFormed(entries)) ==> WellFormed(entries)
    {
      entries := entries[ADMIN_PWD_KEY := Plain(password)];
    }
  }
}
