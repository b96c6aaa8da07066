/** `ProductRow`: one line item on a station's order card, with a checkbox that
    asks for the item's fulfilled flag to be flipped and a spinner shown while the
    confirmation is pending. */
module ProductRow {
  import opened Api

  /** The two values of the `display` prop: 'none' and 'visible'. */
  datatype Display = Hidden | Shown

  /** What the row renders: the amount and the name, the checkbox's checked state
      and which of the two controls is visible. */
  datatype RowView = RowView(amount: int, name: string, checked: bool, checkbox: Display, spinner: Display)

  /** The render: `checked` comes from the persisted flag; the busy flag picks the control. */
  function Render(amount: int, product: Product, isLoading: bool): (v: RowView)
    ensures v.amount == amount && v.name == product.name
    ensures v.checked == product.fulfilled
    ensures v.checkbox == Shown <==> !isLoading
    ensures v.spinner == Shown <==> isLoading
    ensures (v.checkbox == Shown) != (v.spinner == Shown)
  {
    RowView(amount, product.name, product.fulfilled, if isLoading then Hidden else Shown, if isLoading then Shown else Hidden)
  }

  /** What the row reacts to: a change event on the checkbox (its own checked value
      is ignored), and the awaited `onToggle` promise resolving or rejecting. */
  datatype Event = Change(eventChecked: bool) | ToggleResolved | ToggleRejected

  /** How `setIsLoading.toggle()` reacts to each event: the change handler flips the
      flag, a resolution runs the second flip, a rejection ends the handler before it. */
  function Step(isLoading: bool, e: Event): (r: bool)
    ensures r != isLoading <==> !e.ToggleRejected?
  {
    match e
    case Change(_) => !isLoading
    case ToggleResolved => !isLoading
    case ToggleRejected => isLoading
  }

  /** How many of the events run a `toggle()`: all but the rejections. */
  function Flips(events: seq<Event>): (n: nat)
    decreases |events|
  {
    if events == [] then 0 else (if events[0].ToggleRejected? then 0 else 1) + Flips(events[1..])
  }

  /** The flag after a run of events: flipped once per toggle that ran. */
  function Run(isLoading: bool, events: seq<Event>): (r: bool)
    ensures r == (if Flips(events) % 2 == 0 then isLoading else !isLoading)
    decreases |events|
  {
    if events == [] then isLoading else Run(Step(isLoading, events[0]), events[1..])
  }

  lemma {:induction false} RunAppend(isLoading: bool, a: seq<Event>, b: seq<Event>)
    ensures Run(isLoading, a + b) == Run(Run(isLoading, a), b)
    decreases |a|
  {
    if a == [] {
      assert a + b == b;
    } else {
      assert (a + b)[1..] == a[1..] + b;
      RunAppend(Step(isLoading, a[0]), a[1..], b);
    }
  }

  /** One toggle after another, each awaited to the end: `true` for a resolved
      confirmation, `false` for a rejected one. */
  function Toggles(outcomes: seq<bool>): (events: seq<Event>)
    decreases |outcomes|
  {
    if outcomes == [] then []
    else [Change(true), if outcomes[0] then ToggleResolved else ToggleRejected] + Toggles(outcomes[1..])
  }

  /** Toggles that all resolve leave the row idle, with the checkbox back. */
  lemma {:induction false} ResolvedTogglesEndIdle(outcomes: seq<bool>)
    requires forall k :: 0 <= k < |outcomes| ==> outcomes[k]
    ensures !Run(false, Toggles(outcomes))
    decreases |outcomes|
  {
    if outcomes != [] {
      var first := [Change(true), ToggleResolved];
      assert Toggles(outcomes) == first + Toggles(outcomes[1..]);
      RunAppend(false, first, Toggles(outcomes[1..]));
      ResolvedTogglesEndIdle(outcomes[1..]);
    }
  }

  /** With no try/finally, a rejected confirmation leaves the spinner up and the
      checkbox hidden, so the row accepts no further change. */
  lemma RejectionLeavesSpinner(resolved: seq<bool>, amount: int, product: Product)
    requires forall k :: 0 <= k < |resolved| ==> resolved[k]
    ensures Run(false, Toggles(resolved + [false]))
    ensures Render(amount, product, Run(false, Toggles(resolved + [false]))).checkbox == Hidden
  {
    ToggleSplit(resolved, [false]);
    ResolvedTogglesEndIdle(resolved);
    RunAppend(false, Toggles(resolved), Toggles([false]));
  }

  lemma {:induction false} ToggleSplit(a: seq<bool>, b: seq<bool>)
    ensures Toggles(a + b) == Toggles(a) + Toggles(b)
    decreases |a|
  {
    if a == [] {
      assert a + b == b;
    } else {
      assert (a + b)[1..] == a[1..] + b;
      ToggleSplit(a[1..], b);
    }
  }

  /** One mounted row: the busy flag, the current `amount` and `product` props, and
      the values the row has passed to `onToggle`, in order. */
  class Row {
    var isLoading: bool
    var amount: int
    var product: Product
    var confirmations: seq<bool>

    constructor (amount: int, product: Product)
      ensures !isLoading && this.amount == amount && this.product == product && confirmations == []
    {
      isLoading := false;
      this.amount := amount;
      this.product := product;
      confirmations := [];
    }

    function View(): RowView
      reads this
    {
      Render(amount, product, isLoading)
    }

    /** The change handler up to its `await`: flip the flag, ask for the negation of
        the persisted value. */
    method OnChange(eventChecked: bool)
      modifies this
      ensures isLoading == Step(old(isLoading), Change(eventChecked))
      ensures confirmations == old(confirmations) + [!old(product).fulfilled]
      ensures amount == old(amount) && product == old(product)
    {
      isLoading := !isLoading;
      confirmations := confirmations + [!product.fulfilled];
    }

    /** The rest of the handler once `onToggle` settles. */
    method OnToggleSettled(resolved: bool)
      modifies this
      ensures isLoading == Step(old(isLoading), if resolved then ToggleResolved else ToggleRejected)
      ensures amount == old(amount) && product == old(product) && confirmations == old(confirmations)
    {
      if resolved {
        isLoading := !isLoading;
      }
    }

    /** A re-render with new props: the busy flag is row state and survives it. */
    method ReceiveProps(n: int, p: Product)
      modifies this
      ensures amount == n && product == p
      ensures isLoading == old(isLoading) && confirmations == old(confirmations)
    {
      amount, product := n, p;
    }
  }
}
