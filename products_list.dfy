/** `useGetProductsList`: the store holding the full product list. Same captured-state
    semantics as the order list. `products: resp.data` copies the field as sent, so the
    list is None when a successful envelope carries `data: null`. */
module ProductsList {
  import opened Api

  /** IGetProductListState; `products` is None when the server sent `null`. */
  datatype ProductsState = ProductsState(loading: bool, error: Option<string>, products: Option<seq<Product>>)

  const ProductsFallback: string := "Unable to fetch products"

  const InitialState: ProductsState := ProductsState(false, None, Some([]))

  const ProductsRequest: Request := Request(Get, "/api/products?all=1", [])

  /** The first write of every call: loading on, the list emptied, the error kept. */
  function Started(captured: ProductsState): (r: ProductsState)
    ensures r.loading && r.products == Some([]) && r.error == captured.error
  {
    captured.(loading := true, products := Some([]))
  }

  /** The settle write and the resolved value once the envelope has arrived. */
  function AfterFetch(captured: ProductsState, env: Envelope<seq<Product>>): (o: Settled<ProductsState, Option<seq<Product>>>)
    ensures !o.state.loading
    ensures env.success ==> o.state.products == env.data && o.state.error == captured.error && o.returned == env.data
    ensures !env.success ==> o.state.products == captured.products && Truthy(o.state.error) && o.returned == None
    ensures !env.success && Truthy(env.error) ==> o.state.error == env.error
    ensures !env.success && !Truthy(env.error) ==> o.state.error == Some(ProductsFallback)
  {
    if env.success then
      Settled(captured.(loading := false, products := env.data), env.data)
    else
      Settled(captured.(loading := false, error := MessageOr(env.error, ProductsFallback)), None)
  }

  class ProductsStore {
    var loading: bool
    var error: Option<string>
    var products: Option<seq<Product>>
    var sent: seq<Request>

    function State(): ProductsState
      reads this
    {
      ProductsState(loading, error, products)
    }

    constructor ()
      ensures State() == InitialState && sent == []
    {
      loading, error, products, sent := false, None, Some([]), [];
    }

    /** `fetchProducts()` from a render that captured `captured`; a thrown fetch or
        parse error leaves the loading write in place. */
    method FetchProducts(captured: ProductsState, reply: Reply<seq<Product>>)
      returns (c: Completion<Option<seq<Product>>>)
      modifies this
      ensures sent == old(sent) + [ProductsRequest]
      ensures reply.Thrown? ==> State() == Started(captured) && c == Rejected
      ensures reply.Delivered? ==>
        State() == AfterFetch(captured, reply.envelope).state && c == Resolved(AfterFetch(captured, reply.envelope).returned)
    {
      loading, error, products := true, captured.error, Some([]);
      sent := sent + [ProductsRequest];
      if reply.Thrown? {
        c := Rejected;
        return;
      }
      var env := reply.envelope;
      loading, products := false, captured.products;
      if env.success {
        products := env.data;
        c := Resolved(env.data);
      } else {
        error := MessageOr(env.error, ProductsFallback);
        c := Resolved(None);
      }
    }
  }
}
