/** `useGetEarningsPerDay` and `useGetTotalEarnings`: the earnings figures of the
    admin dashboard. */
module Earnings {
  import opened Api

  /** A JSON number or null, as `resp.data` is copied without looking at `success`. */
  type Amount = Option<int>

  /** One element `[day, resp.data]` of the joined queue. */
  datatype DayAmount = DayAmount(day: int, amount: Amount)

  const InitialPerDay: seq<Amount> := [Some(0), Some(0), Some(0), Some(0), Some(0)]

  function DayRequest(day: int): (r: Request) {
    Request(Get, "/api/orders/earnings/" + NumberToString(day), [])
  }

  const DayRequests: seq<Request> := [DayRequest(0), DayRequest(1), DayRequest(2), DayRequest(3), DayRequest(4)]

  const TotalRequest: Request := Request(Get, "/api/orders/earnings", [])

  /** The amount of the last entry of `queue` for `day`, or `unset` when there is none:
      what `newEarnings[day]` holds after `for (let [day, amount] of queue)`. */
  function LastFor(queue: seq<DayAmount>, day: int, unset: Amount): (a: Amount)
    decreases |queue|
  {
    if queue == [] then unset
    else if queue[|queue| - 1].day == day then queue[|queue| - 1].amount
    else LastFor(queue[..|queue| - 1], day, unset)
  }

  /** The queue Promise.all yields when every call resolved: entry k is `[k, data of call k]`. */
  function Indexed(amounts: seq<Amount>): (q: seq<DayAmount>)
    ensures |q| == |amounts|
  {
    seq(|amounts|, k requires 0 <= k < |amounts| => DayAmount(k, amounts[k]))
  }

  /** Promise.all over the calls: None as soon as one of them threw, otherwise the
      `data` of each envelope in call order. */
  function Gather(replies: seq<Reply<int>>): (q: Option<seq<Amount>>)
    ensures q.None? <==> exists k :: 0 <= k < |replies| && replies[k].Thrown?
    ensures q.Some? ==> |q.value| == |replies|
    ensures q.Some? ==> forall k :: 0 <= k < |replies| ==> q.value[k] == replies[k].envelope.data
  {
    if replies == [] then Some([])
    else if replies[0].Thrown? then None
    else
      match Gather(replies[1..])
      case None => None
      case Some(rest) => Some([replies[0].envelope.data] + rest)
  }

  /** The loop of the `then` callback: copy `prev` and write each queued amount into its slot. */
  method JoinQueue(prev: seq<Amount>, queue: seq<DayAmount>) returns (next: seq<Amount>)
    requires forall k :: 0 <= k < |queue| ==> 0 <= queue[k].day < |prev|
    ensures |next| == |prev|
    ensures forall d :: 0 <= d < |prev| ==> next[d] == LastFor(queue, d, prev[d])
  {
    var slots := new Amount[|prev|](i requires 0 <= i < |prev| => prev[i]);
    for k := 0 to |queue|
      invariant forall d :: 0 <= d < |prev| ==> slots[d] == LastFor(queue[..k], d, prev[d])
    {
      assert queue[..k + 1][..k] == queue[..k];
      slots[queue[k].day] := queue[k].amount;
    }
    assert queue[..|queue|] == queue;
    next := slots[..];
  }

  /** In the queue Promise.all builds, slot d ends up with what call d reported. */
  lemma {:induction false} IndexedLastFor(amounts: seq<Amount>, d: int, unset: Amount)
    requires 0 <= d < |amounts|
    ensures LastFor(Indexed(amounts), d, unset) == amounts[d]
  {
    var n := |amounts|;
    if d != n - 1 {
      var shorter := amounts[..n - 1];
      assert Indexed(amounts)[..n - 1] == Indexed(shorter);
      IndexedLastFor(shorter, d, unset);
    }
  }

  /** When no call threw, a day whose envelope says `success: false` with `data: null`
      does not keep its previous value: the join writes null into that slot. */
  lemma FailedDayWritesNull(captured: seq<Amount>, replies: seq<Reply<int>>, d: int)
    requires |captured| == 5 && |replies| == 5
    requires forall k :: 0 <= k < 5 ==> replies[k].Delivered?
    requires 0 <= d < 5
    requires !replies[d].envelope.success && replies[d].envelope.data.None?
    ensures Gather(replies).Some?
    ensures LastFor(Indexed(Gather(replies).value), d, captured[d]) == None
  {
    IndexedLastFor(Gather(replies).value, d, captured[d]);
  }

  /** What the `then` callback passes to `setEarnings`, or None when it writes nothing:
      Promise.all rejects as soon as one of the five calls throws. */
  method JoinDays(captured: seq<Amount>, replies: seq<Reply<int>>) returns (written: Option<seq<Amount>>)
    requires |captured| == 5 && |replies| == 5
    ensures written.None? <==> exists k :: 0 <= k < 5 && replies[k].Thrown?
    ensures written.Some? ==> |written.value| == 5
    ensures written.Some? ==> forall d :: 0 <= d < 5 ==> written.value[d] == replies[d].envelope.data
  {
    var gathered := Gather(replies);
    if gathered.None? {
      return None;
    }
    var queue := Indexed(gathered.value);
    if |queue| > 0 {
      var joined := JoinQueue(captured, queue);
      forall d | 0 <= d < 5
        ensures joined[d] == replies[d].envelope.data
      {
        IndexedLastFor(gathered.value, d, captured[d]);
      }
      written := Some(joined);
    } else {
      written := None;
    }
  }

  /** The hook's per-day state slot and the requests it has issued. */
  class EarningsPerDayStore {
    var earnings: seq<Amount>
    var sent: seq<Request>

    constructor ()
      ensures earnings == InitialPerDay && sent == []
    {
      earnings, sent := InitialPerDay, [];
    }

    /** The mount effect: five requests (days 0 to 4), then the join onto `captured`
        (the value the mount render saw). */
    method LoadPerDay(captured: seq<Amount>, replies: seq<Reply<int>>)
      requires |captured| == 5 && |replies| == 5
      modifies this
      ensures sent == old(sent) + DayRequests
      ensures Gather(replies).None? ==> earnings == old(earnings)
      ensures Gather(replies).Some? ==> |earnings| == 5
      ensures Gather(replies).Some? ==> forall d :: 0 <= d < 5 ==> earnings[d] == replies[d].envelope.data
    {
      sent := sent + DayRequests;
      var written := JoinDays(captured, replies);
      if written.Some? {
        earnings := written.value;
      }
    }
  }

  /** `useGetTotalEarnings`: every resolved call overwrites the figure with
      `resp.data`, whatever `success` says; a thrown call changes nothing. */
  class TotalEarningsStore {
    var earnings: Amount
    var sent: seq<Request>

    constructor ()
      ensures earnings == Some(0) && sent == []
    {
      earnings, sent := Some(0), [];
    }

    method LoadTotal(reply: Reply<int>)
      modifies this
      ensures sent == old(sent) + [TotalRequest]
      ensures reply.Delivered? ==> earnings == reply.envelope.data
      ensures reply.Thrown? ==> earnings == old(earnings)
    {
      sent := sent + [TotalRequest];
      if reply.Delivered? {
        earnings := reply.envelope.data;
      }
    }
  }
}
