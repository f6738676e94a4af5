/** The cart store the pages talk to. Its implementation is not part of this
    model. The calls the pages make to it are represented by the log of the
    calls it has received, in order; the values the pages read from it are
    inputs of the page functions. */
module Cart {
  import opened Catalog

  /** One request to the cart store, as the pages issue it. */
  datatype CartCall =
    | AddToCart(product: Product)
    | UpdateQuantity(id: string, quantity: int)
    | RemoveFromCart(id: string)
    | ClearCart

  /** A line of the cart as the pages read it. */
  datatype CartItem = CartItem(id: string, name: string, price: real, quantity: int)

  /** The store as a collaborator: every call is appended to `calls`. */
  class CartLog {
    var calls: seq<CartCall>

    constructor ()
      ensures calls == []
    {
      calls := [];
    }

    method Record(c: CartCall)
      modifies this
      ensures calls == old(calls) + [c]
    {
      calls := calls + [c];
    }
  }
}
