/** `useGetOrdersList`: the order-list store of the admin screens, with its two
    addressing modes (a page of orders, or one order looked up by id).

    Every `setState({...state, ...})` in the hook rebuilds the whole record from the
    state the calling render captured plus the named overrides; it never reads the
    record an earlier write of the same call produced. The settle functions below
    therefore take that captured record, not the store's current one. */
module OrdersList {
  import opened Api

  /** The `order` part of a RichOrderT; `id` is None when the field is missing. */
  datatype OrderHeader = OrderHeader(id: Option<int>, createdAt: int)

  /** RichOrderT: an order with its line items; `order` is None when the field is missing. */
  datatype RichOrder = RichOrder(order: Option<OrderHeader>, products: seq<Product>)

  /** IGetOrdersListState. */
  datatype ListState = ListState(loading: bool, error: Option<string>, orders: seq<RichOrder>, page: int)

  const ListFallback: string := "Unable to fetch orders"

  function InitialState(page: int): (s: ListState) {
    ListState(false, None, [], page)
  }

  /** The server's answers: to `GET /api/orders?p={page}` and to `GET /api/order/{id}`. */
  datatype Backend = Backend(listPage: int -> Reply<seq<RichOrder>>, lookup: int -> Reply<RichOrder>)

  datatype Mode = ListMode | LookupMode(id: int)

  /** `if (!orderId)`: a missing id and the id 0 are falsy and select list mode. */
  function ModeOf(orderId: Option<int>): (m: Mode)
    ensures m.ListMode? <==> orderId.None? || orderId == Some(0)
    ensures m.LookupMode? ==> orderId == Some(m.id) && m.id != 0
  {
    if orderId.None? || orderId.value == 0 then ListMode else LookupMode(orderId.value)
  }

  /** The one request a call sends. List mode uses the hook's `page` argument,
      which is not necessarily the `page` field of the captured state. */
  function RequestFor(m: Mode, page: int): (r: Request)
    ensures r.verb == Get && r.form == []
    ensures m.ListMode? ==> |r.url| > 14 && r.url[..14] == "/api/orders?p=" && NumberValue(r.url[14..]) == page
    ensures m.LookupMode? ==> |r.url| > 11 && r.url[..11] == "/api/order/" && NumberValue(r.url[11..]) == m.id
  {
    NumberRoundTrip(page);
    NumberRoundTrip(if m.LookupMode? then m.id else 0);
    DigitsRoundTrip(0);
    match m
    case ListMode => Request(Get, "/api/orders?p=" + NumberToString(page), [])
    case LookupMode(id) => Request(Get, "/api/order/" + NumberToString(id), [])
  }

  /** Different pages, different looked-up ids, and a page versus a lookup never
      share a request. */
  lemma RequestForInjective(m1: Mode, page1: int, m2: Mode, page2: int)
    requires RequestFor(m1, page1) == RequestFor(m2, page2)
    ensures m1.ListMode? <==> m2.ListMode?
    ensures m1.ListMode? ==> page1 == page2
    ensures m1.LookupMode? ==> m1 == m2
  {
    assert RequestFor(m1, page1).url[10] == if m1.ListMode? then 's' else '/';
    assert RequestFor(m2, page2).url[10] == if m2.ListMode? then 's' else '/';
  }

  /** The first write of every call: loading on and the list emptied. */
  function Started(captured: ListState): (r: ListState)
    ensures r.loading && r.orders == []
    ensures r.error == captured.error && r.page == captured.page
  {
    captured.(loading := true, orders := [])
  }

  /** The final write of a call together with the value its promise resolves to. */
  type ListOutcome = Settled<ListState, Option<seq<RichOrder>>>

  /** List mode, once the envelope has been decoded. */
  function AfterList(captured: ListState, env: Envelope<seq<RichOrder>>): (o: ListOutcome)
    ensures !o.state.loading && o.state.page == captured.page
    ensures env.success ==> o.state.orders == env.data.GetOr([]) && o.state.error == captured.error
    ensures env.success ==> o.returned == env.data
    ensures !env.success ==> o.state.orders == captured.orders && Truthy(o.state.error) && o.returned == None
    ensures !env.success && Truthy(env.error) ==> o.state.error == env.error
    ensures !env.success && !Truthy(env.error) ==> o.state.error == Some(ListFallback)
  {
    if env.success then
      Settled(captured.(loading := false, orders := env.data.GetOr([])), env.data)
    else
      Settled(captured.(loading := false, error := MessageOr(env.error, ListFallback)), None)
  }

  predicate IdTruthy(id: Option<int>) {
    id.Some? && id.value != 0
  }

  /** How `resp.success === true && !!resp.data.order.id` evaluates: reading
      `.order.id` through a null `data` or a missing `order` throws a TypeError. */
  datatype LookupCheck = Found | NotFound | TypeErrorThrown

  function CheckLookup(env: Envelope<RichOrder>): (c: LookupCheck)
    ensures c == Found <==>
      env.success && env.data.Some? && env.data.value.order.Some? && IdTruthy(env.data.value.order.value.id)
    ensures c == TypeErrorThrown <==> env.success && (env.data.None? || env.data.value.order.None?)
  {
    if !env.success then NotFound
    else if env.data.None? || env.data.value.order.None? then TypeErrorThrown
    else if IdTruthy(env.data.value.order.value.id) then Found
    else NotFound
  }

  /** Lookup mode, once the envelope has been decoded; None when the condition
      throws, so that no write follows the loading write. */
  function AfterLookup(captured: ListState, env: Envelope<RichOrder>): (o: Option<ListOutcome>)
    ensures o.None? <==> CheckLookup(env) == TypeErrorThrown
    ensures o.Some? ==> !o.value.state.loading && o.value.state.page == captured.page
    ensures CheckLookup(env) == Found ==>
      o.Some? && o.value.state.orders == [env.data.value] && o.value.returned == Some([env.data.value]) &&
      o.value.state.error == captured.error
    ensures CheckLookup(env) == NotFound ==>
      o.Some? && o.value.state.orders == [] && o.value.state.error == env.error && o.value.returned == None
  {
    match CheckLookup(env)
    case Found =>
      Some(Settled(captured.(loading := false, orders := [env.data.value]), Some([env.data.value])))
    case NotFound =>
      Some(Settled(captured.(loading := false, error := env.error, orders := []), None))
    case TypeErrorThrown =>
      None
  }

  /** The state a whole `fetchOrders` call leaves and how its promise settles. */
  datatype Run = Run(state: ListState, completion: Completion<Option<seq<RichOrder>>>)

  /** List mode: a thrown fetch or parse leaves the loading write and rejects; a
      decoded envelope leaves `AfterList`'s write and value. */
  function ListRun(captured: ListState, reply: Reply<seq<RichOrder>>): (r: Run)
    ensures r.completion.Rejected? <==> reply.Thrown?
    ensures reply.Thrown? ==> r.state == Started(captured)
    ensures reply.Delivered? ==>
      r.state == AfterList(captured, reply.envelope).state &&
      r.completion == Resolved(AfterList(captured, reply.envelope).returned)
  {
    match reply
    case Thrown => Run(Started(captured), Rejected)
    case Delivered(env) =>
      var o := AfterList(captured, env);
      Run(o.state, Resolved(o.returned))
  }

  /** Lookup mode: a throw in the fetch, the parse or the condition leaves the
      loading write and rejects; otherwise `AfterLookup`'s write and value. */
  function LookupRun(captured: ListState, reply: Reply<RichOrder>): (r: Run)
    ensures r.completion.Rejected? <==> reply.Thrown? || CheckLookup(reply.envelope) == TypeErrorThrown
    ensures r.completion.Rejected? ==> r.state == Started(captured)
    ensures r.completion.Resolved? ==>
      r.state == AfterLookup(captured, reply.envelope).value.state &&
      r.completion == Resolved(AfterLookup(captured, reply.envelope).value.returned)
  {
    match reply
    case Thrown => Run(Started(captured), Rejected)
    case Delivered(env) =>
      match AfterLookup(captured, env)
      case None => Run(Started(captured), Rejected)
      case Some(o) => Run(o.state, Resolved(o.returned))
  }

  /** `fetchOrders(orderId)` called from a render that captured `captured` and `page`. */
  function FetchOrdersRun(captured: ListState, page: int, orderId: Option<int>, backend: Backend): (r: Run)
    ensures r.state.page == captured.page
    ensures ModeOf(orderId).ListMode? ==>
      (r.completion.Rejected? <==> backend.listPage(page).Thrown?)
    ensures ModeOf(orderId).ListMode? && backend.listPage(page).Delivered? ==>
      r.state == AfterList(captured, backend.listPage(page).envelope).state &&
      r.completion == Resolved(AfterList(captured, backend.listPage(page).envelope).returned)
    ensures ModeOf(orderId).LookupMode? ==>
      (r.completion.Rejected? <==>
        backend.lookup(ModeOf(orderId).id).Thrown? ||
        CheckLookup(backend.lookup(ModeOf(orderId).id).envelope) == TypeErrorThrown)
    ensures ModeOf(orderId).LookupMode? && r.completion.Resolved? ==>
      r.state == AfterLookup(captured, backend.lookup(ModeOf(orderId).id).envelope).value.state &&
      r.completion == Resolved(AfterLookup(captured, backend.lookup(ModeOf(orderId).id).envelope).value.returned)
    ensures r.state.loading <==> r.completion.Rejected?
    ensures r.completion.Rejected? ==> r.state == Started(captured)
    ensures r.completion.Resolved? && r.completion.value.Some? ==> r.state.orders == r.completion.value.value
    ensures r.completion.Resolved? && r.completion.value.Some? && ModeOf(orderId).LookupMode? ==>
      |r.state.orders| == 1
  {
    match ModeOf(orderId)
    case ListMode => ListRun(captured, backend.listPage(page))
    case LookupMode(id) => LookupRun(captured, backend.lookup(id))
  }

  /** A failed fetch followed by a successful one, the second called from the render
      that showed the failure: the old message is still there next to the new list. */
  lemma StaleErrorSurvivesSuccess(captured: ListState, failed: Envelope<seq<RichOrder>>, ok: Envelope<seq<RichOrder>>)
    requires !failed.success && ok.success
    ensures var s := AfterList(AfterList(captured, failed).state, ok).state;
      !s.loading && Truthy(s.error) && s.orders == ok.data.GetOr([])
  {
  }

  /** The hook's state slot; `sent` records the requests the store has issued. */
  class OrdersListStore {
    var loading: bool
    var error: Option<string>
    var orders: seq<RichOrder>
    var page: int
    var sent: seq<Request>

    function State(): ListState
      reads this
    {
      ListState(loading, error, orders, page)
    }

    constructor (page: int)
      ensures State() == InitialState(page) && sent == []
    {
      loading, error, orders, this.page := false, None, [], page;
      sent := [];
    }

    /** `setState({...captured, loading: true, orders: []})`. */
    method Begin(captured: ListState)
      modifies this
      ensures State() == Started(captured) && sent == old(sent)
    {
      loading, orders := true, [];
      error, page := captured.error, captured.page;
    }

    /** The list-mode write once the envelope has arrived. */
    method ListSettled(captured: ListState, env: Envelope<seq<RichOrder>>) returns (r: Option<seq<RichOrder>>)
      modifies this
      ensures State() == AfterList(captured, env).state && r == AfterList(captured, env).returned
      ensures sent == old(sent)
    {
      loading, error, orders, page := false, captured.error, captured.orders, captured.page;
      if env.success {
        orders := env.data.GetOr([]);
        r := env.data;
      } else {
        error := MessageOr(env.error, ListFallback);
        r := None;
      }
    }

    /** The lookup-mode write once the envelope has arrived; Rejected when the
        condition throws, in which case nothing is written. */
    method LookupSettled(captured: ListState, env: Envelope<RichOrder>) returns (c: Completion<Option<seq<RichOrder>>>)
      modifies this
      ensures AfterLookup(captured, env).None? ==> c == Rejected && State() == old(State())
      ensures AfterLookup(captured, env).Some? ==>
        State() == AfterLookup(captured, env).value.state && c == Resolved(AfterLookup(captured, env).value.returned)
      ensures sent == old(sent)
    {
      var check := CheckLookup(env);
      if check == TypeErrorThrown {
        c := Rejected;
        return;
      }
      loading, error, orders, page := false, captured.error, captured.orders, captured.page;
      if check == Found {
        orders := [env.data.value];
        c := Resolved(Some([env.data.value]));
      } else {
        error, orders := env.error, [];
        c := Resolved(None);
      }
    }

    /** `fetchOrders(orderId)`: the loading write, one request, then the settle write. */
    method FetchOrders(captured: ListState, page: int, orderId: Option<int>, backend: Backend)
      returns (c: Completion<Option<seq<RichOrder>>>)
      modifies this
      ensures sent == old(sent) + [RequestFor(ModeOf(orderId), page)]
      ensures State() == FetchOrdersRun(captured, page, orderId, backend).state
      ensures c == FetchOrdersRun(captured, page, orderId, backend).completion
    {
      Begin(captured);
      var mode := ModeOf(orderId);
      sent := sent + [RequestFor(mode, page)];
      if mode.ListMode? {
        var reply := backend.listPage(page);
        if reply.Thrown? {
          c := Rejected;
        } else {
          var r := ListSettled(captured, reply.envelope);
          c := Resolved(r);
        }
      } else {
        var reply := backend.lookup(mode.id);
        if reply.Thrown? {
          c := Rejected;
        } else {
          c := LookupSettled(captured, reply.envelope);
        }
      }
    }
  }
}
