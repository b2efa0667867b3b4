/** `backoffice/src/types/product.ts`: a product as the back office receives it. Prices
    and stock are JavaScript numbers (stock may be fractional); timestamps are the
    instants the `created_at` / `updated_at` strings denote, in milliseconds. */
module Catalog {
  datatype Product = Product(
    id: int, name: string, description: string, price: real, stock: real, userId: int,
    image: string, createdAt: int, updatedAt: int)
}
