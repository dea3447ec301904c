/**
 * The records the client and the server exchange: catalog products, cart lines
 * (which the server stores unchanged as order items) and the customer record.
 */
module Shop {
  import opened Seqs

  /** A catalog entry; prices are whole amounts of the smallest currency unit. */
  datatype Product = Product(id: int, name: string, desc: string, price: int, category: string, img: string)

  /** A cart line: a snapshot of the product's id, name, price and image when it was added, and a quantity. */
  datatype CartLine = CartLine(id: int, name: string, price: int, img: string, quantity: int)

  /** The free-form customer record (the client sends `name` and `phone`). */
  type Customer = map<string, string>

  /** The test `x => x.id === id` both sides pass to `find` over products. */
  function ProductWithId(id: int): Product -> bool
  {
    (p: Product) => p.id == id
  }

  function LineTotal(l: CartLine): int
  {
    l.price * l.quantity
  }

  /** `items.reduce((s, i) => s + i.price * i.quantity, 0)`, on both the client and the server. */
  function TotalPrice(lines: seq<CartLine>): int
  {
    Sum(lines, LineTotal)
  }
}
