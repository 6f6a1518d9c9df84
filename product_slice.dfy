/**
 * The client's product list and the reducers that the fetch and add requests'
 * results drive.
 */
module ProductSlice {
  import opened Common
  import opened Products

  class ProductsState {
    var items: seq<Product>
    var loading: bool
    var error: Option<string>

    /** The initial state: no items, not loading, no error. */
    constructor ()
      ensures items == [] && !loading && error == None
    {
      items, loading, error := [], false, None;
    }

    /** fetchProducts.pending */
    method FetchProductsPending()
      modifies this
      ensures loading && items == old(items) && error == old(error)
    {
      loading := true;
    }

    /** fetchProducts.fulfilled */
    method FetchProductsFulfilled(payload: seq<Product>)
      modifies this
      ensures !loading && items == payload && error == old(error)
    {
      loading := false;
      items := payload;
    }

    /** fetchProducts.rejected */
    method FetchProductsRejected(message: string)
      modifies this
      ensures !loading && error == Some(message) && items == old(items)
    {
      loading := false;
      error := Some(message);
    }

    /** addProduct.fulfilled: the new product pushed at the end of the list. */
    method AddProductFulfilled(payload: Product)
      modifies this
      ensures |items| == |old(items)| + 1
      ensures items[..|old(items)|] == old(items) && items[|old(items)|] == payload
      ensures loading == old(loading) && error == old(error)
    {
      items := items + [payload];
    }
  }
}
