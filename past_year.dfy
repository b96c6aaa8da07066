/** `useGetOrdersPastYear`: the analytics store. Each order of the past year is
    enriched with its hour of day, its number of line items and its total. */
module PastYear {
  import opened Api

  /** OrderT: the server's order record with its line items. */
  datatype Order = Order(id: int, createdAt: string, products: seq<Product>)

  /** `{...o, timeOfDay, productsLen, total}`: the original record is kept whole. */
  datatype EnrichedOrder = EnrichedOrder(order: Order, timeOfDay: int, productsLen: nat, total: int)

  /** `products.map((p) => p.price)`. */
  function Prices(ps: seq<Product>): (r: seq<int>)
    ensures |r| == |ps|
    ensures forall i :: 0 <= i < |ps| ==> r[i] == ps[i].price
  {
    seq(|ps|, i requires 0 <= i < |ps| => ps[i].price)
  }

  /** The sum of a list of numbers, added from the right. */
  function Sum(xs: seq<int>): (r: int)
    decreases |xs|
  {
    if xs == [] then 0 else xs[0] + Sum(xs[1..])
  }

  /** `xs.reduce((a, b) => a + b, acc)`: a left fold starting from `acc`, which adds
      the sum of the list to the accumulator. */
  function FoldAdd(acc: int, xs: seq<int>): (r: int)
    ensures r == acc + Sum(xs)
    decreases |xs|
  {
    if xs == [] then acc else FoldAdd(acc + xs[0], xs[1..])
  }

  /** The reference total of an order: the sum of its line items' prices. */
  function PriceTotal(ps: seq<Product>): (t: int) {
    Sum(Prices(ps))
  }

  /** The callback of `.map` for one order; `hourOf` stands for `new Date(t).getHours()`. */
  function EnrichOne(o: Order, hourOf: string -> int): (e: EnrichedOrder)
    ensures e.order == o && e.timeOfDay == hourOf(o.createdAt)
    ensures e.productsLen == |o.products|
    ensures e.total == PriceTotal(o.products)
  {
    EnrichedOrder(o, hourOf(o.createdAt), |o.products|, FoldAdd(0, Prices(o.products)))
  }

  /** `orders.map(...)`: one enriched order per input order, in the same order. */
  function Enrich(orders: seq<Order>, hourOf: string -> int): (r: seq<EnrichedOrder>)
    ensures |r| == |orders|
    ensures forall i :: 0 <= i < |orders| ==> r[i].order == orders[i]
    ensures forall i :: 0 <= i < |orders| ==> r[i].timeOfDay == hourOf(orders[i].createdAt)
    ensures forall i :: 0 <= i < |orders| ==> r[i].productsLen == |orders[i].products|
    ensures forall i :: 0 <= i < |orders| ==> r[i].total == PriceTotal(orders[i].products)
  {
    seq(|orders|, i requires 0 <= i < |orders| => EnrichOne(orders[i], hourOf))
  }

  /** OrdersStateT, holding the enriched orders. */
  datatype PastYearState = PastYearState(loading: bool, error: Option<string>, orders: seq<EnrichedOrder>)

  const PastYearFallback: string := "Unable to fetch orders"

  const InitialState: PastYearState := PastYearState(true, None, [])

  const PastYearRequest: Request := Request(Get, "/api/orders/past_year", [])

  /** The write and the resolved value once the envelope has arrived. The promise
      resolves to the raw `resp.data`, not to the enriched list. */
  function AfterGetOrders(captured: PastYearState, env: Envelope<seq<Order>>, hourOf: string -> int)
    : (o: Settled<PastYearState, Option<seq<Order>>>)
    ensures !o.state.loading
    ensures env.success ==> o.state.orders == Enrich(env.data.GetOr([]), hourOf) && o.state.error == captured.error
    ensures env.success ==> o.returned == env.data
    ensures !env.success ==> o.state.orders == captured.orders && Truthy(o.state.error) && o.returned == None
    ensures !env.success && Truthy(env.error) ==> o.state.error == env.error
    ensures !env.success && !Truthy(env.error) ==> o.state.error == Some(PastYearFallback)
  {
    if env.success then
      Settled(captured.(loading := false, orders := Enrich(env.data.GetOr([]), hourOf)), env.data)
    else
      Settled(captured.(loading := false, error := MessageOr(env.error, PastYearFallback)), None)
  }

  class PastYearStore {
    var loading: bool
    var error: Option<string>
    var orders: seq<EnrichedOrder>
    var sent: seq<Request>

    function State(): PastYearState
      reads this
    {
      PastYearState(loading, error, orders)
    }

    constructor ()
      ensures State() == InitialState && sent == []
    {
      loading, error, orders, sent := true, None, [], [];
    }

    /** `getOrders()` from a render that captured `captured`. There is no loading
        write first; a thrown fetch or parse error writes nothing. */
    method GetOrders(captured: PastYearState, reply: Reply<seq<Order>>, hourOf: string -> int)
      returns (c: Completion<Option<seq<Order>>>)
      modifies this
      ensures sent == old(sent) + [PastYearRequest]
      ensures reply.Thrown? ==> State() == old(State()) && c == Rejected
      ensures reply.Delivered? ==>
        State() == AfterGetOrders(captured, reply.envelope, hourOf).state &&
        c == Resolved(AfterGetOrders(captured, reply.envelope, hourOf).returned)
    {
      sent := sent + [PastYearRequest];
      if reply.Thrown? {
        return Rejected;
      }
      var env := reply.envelope;
      if env.success {
        var enriched := Enrich(env.data.GetOr([]), hourOf);
        loading, error, orders := false, captured.error, enriched;
        c := Resolved(env.data);
      } else {
        loading, error, orders := false, MessageOr(env.error, PastYearFallback), captured.orders;
        c := Resolved(None);
      }
    }
  }
}
