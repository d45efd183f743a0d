/**
 * The storefront's domain records (types.ts). Every one of them is a plain value:
 * the panel never mutates a record, it builds new ones with object spread.
 * Ids, names, categories and image links are strings; prices and fees are
 * modelled as integers (the source's floating-point numbers are abstracted).
 */
module Types {
  import opened Wrappers

  /** One variant of a product. `price` is absent when the variant costs the product's base price. */
  datatype ProductOption = ProductOption(name: string, price: Option<int>)

  /**
   * A catalog entry. `category` holds the NAME of a category, not its id, so it is a
   * denormalised reference that nothing keeps in step with the category list.
   * `options` may be absent altogether.
   */
  datatype Product = Product(
    id: string,
    name: string,
    description: string,
    price: int,
    category: string,
    image: string,
    options: Option<seq<ProductOption>>)

  datatype Category = Category(id: string, name: string)

  /** A delivery zone with its delivery fee. */
  datatype Neighborhood = Neighborhood(id: string, name: string, fee: int)

  /** A product in a customer's cart: the product, how many, and the chosen variant if any. */
  datatype CartItem = CartItem(product: Product, quantity: int, selectedOption: Option<ProductOption>)

  /** The option list of a product, an absent list read as the empty one (`product.options || []`). */
  function OptionsOf(p: Product): (r: seq<ProductOption>)
    ensures p.options.Some? ==> r == p.options.value
    ensures p.options.None? ==> r == []
  {
    p.options.GetOr([])
  }

  /** Key projections, used to instantiate the generic collection operations. */
  function ProductId(p: Product): string { p.id }
  function CategoryId(c: Category): string { c.id }
  function NeighborhoodId(n: Neighborhood): string { n.id }
}
