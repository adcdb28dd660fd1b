/**
 * The storefront catalog as the bot reads it. The SQL queries against the storefront
 * database are replaced by a partial map from product id to the product's fields;
 * prices are exact amounts in kopecks.
 */
module Catalog {

  datatype Product = Product(
    productId: int,
    name: string,
    model: string,
    description: string,  // "" when the storefront has none
    price: int,           // kopecks
    quantity: int         // stock level
  )

  /** `get_products_batch` / `get_product_details`: the products the storefront knows. */
  type Catalog = map<int, Product>

  /** Each product is stored under its own id, as the batch query builds its dict. */
  ghost predicate WellFormed(catalog: Catalog)
  {
    forall id :: id in catalog ==> catalog[id].productId == id
  }

  /** The `in_stock` flag of `get_product_details`. */
  predicate InStock(p: Product)
  {
    p.quantity > 0
  }
}
