/**
 * The catalog entities the pages read (src/data/productsList.ts). Prices are
 * whole rupees; a variant's price is a delta added to its product's price.
 */
module Catalog {

  datatype Variant = Variant(id: string, name: string, price: int)

  /** An absent `variants` field is the empty sequence. */
  datatype Product = Product(
    id: int,
    title: string,
    category: string,
    subCategory: string,
    price: int,
    thumbnail: string,
    variants: seq<Variant>)

  /** A category or sub-category button: its name and the thumbnail it shows. */
  datatype CategoryItem = CategoryItem(name: string, thumbnail: string)
}
