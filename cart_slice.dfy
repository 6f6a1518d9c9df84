/**
 * The client's cart state and the reducers that the cart requests' results
 * drive. Each result replaces the items with those of the cart the server
 * sent back; only the fetch request touches `loading` and `error`.
 */
module CartSlice {
  import opened Common
  import opened CartItems

  class CartState {
    var items: seq<LineItem>
    var loading: bool
    var error: Option<string>

    /** The initial state: no items, not loading, no error. */
    constructor ()
      ensures items == [] && !loading && error == None
    {
      items, loading, error := [], false, None;
    }

    /** fetchCart.fulfilled */
    method FetchCartFulfilled(payloadItems: seq<LineItem>)
      modifies this
      ensures items == payloadItems && !loading && error == old(error)
    {
      items := payloadItems;
      loading := false;
    }

    /** fetchCart.pending */
    method FetchCartPending()
      modifies this
      ensures loading && items == old(items) && error == old(error)
    {
      loading := true;
    }

    /** fetchCart.rejected */
    method FetchCartRejected(message: string)
      modifies this
      ensures !loading && error == Some(message) && items == old(items)
    {
      loading := false;
      error := Some(message);
    }

    /** addToCart.fulfilled, updateCartItem.fulfilled and removeFromCart.fulfilled
        all run this same reducer. */
    method ItemsFulfilled(payloadItems: seq<LineItem>)
      modifies this
      ensures items == payloadItems && loading == old(loading) && error == old(error)
    {
      items := payloadItems;
    }

    /** clearCart.fulfilled: the result does not depend on the old items, so a
        second clear changes nothing. */
    method ClearCartFulfilled()
      modifies this
      ensures items == [] && loading == old(loading) && error == old(error)
    {
      items := [];
    }
  }
}
