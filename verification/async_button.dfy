/**
 The async-aware button: a `loading` flag that a click raises before awaiting
 the click handler and that a `finally` clears whether the handler fulfils or
 throws. While loading the button is disabled, so the browser delivers no
 further click until the pending one settles. The state also counts the
 handler invocations still awaited, so that this guard can be stated.
 */
module AsyncButton {
  import opened Wrappers

  /** How the awaited `onClick` result settles; an absent handler, or one that
      returns a non-promise, fulfils. A synchronous throw is inside the `try`
      and counts as a rejection. */
  datatype Outcome = Fulfilled | Rejected

  /** The props the button reads; `disabled` is false when not given, and
      `loadingIcon` defaults to a progress spinner (any node here). */
  datatype Props<N> = Props(disabled: bool, startIcon: Option<N>, loadingIcon: Option<N>, loadingIndicator: Option<N>, children: N)

  datatype State = State(loading: bool, pending: nat)

  /** The button starts not loading, with nothing awaited. */
  const Initial: State := State(false, 0)

  /** What the underlying button is rendered with. */
  datatype Rendered<N> = Rendered(disabled: bool, startIcon: Option<N>, content: N)

  /** The rendered button: disabled while loading or when the prop says so;
      while loading it shows the loading icon and the loading indicator (the
      children when no indicator is given), otherwise the start icon and the
      children. */
  function Render<N>(props: Props<N>, s: State): (r: Rendered<N>)
    ensures r.disabled == (s.loading || props.disabled)
    ensures r.startIcon == (if s.loading then props.loadingIcon else props.startIcon)
    ensures s.loading && props.loadingIndicator.Some? ==> r.content == props.loadingIndicator.value
    ensures s.loading && props.loadingIndicator.None? ==> r.content == props.children
    ensures !s.loading ==> r.content == props.children
  {
    Rendered(
      s.loading || props.disabled,
      if s.loading then props.loadingIcon else props.startIcon,
      if s.loading then (if props.loadingIndicator.Some? then props.loadingIndicator.value else props.children)
      else props.children)
  }

  /** The handler's synchronous part: loading is raised before anything is awaited. */
  function Click(s: State): (r: State)
    ensures r.loading && r.pending == s.pending + 1
  {
    State(true, s.pending + 1)
  }

  /** The `finally` after one awaited handler settles. The handler's own promise
      always fulfils: the `catch` swallows a rejection. */
  function Settle(s: State, o: Outcome): (r: (State, Outcome))
    requires s.pending > 0
    ensures !r.0.loading && r.0.pending == s.pending - 1
    ensures r.1 == Fulfilled
  {
    (State(false, s.pending - 1), Fulfilled)
  }

  /** A press of the button while the prop `disabled` has the given value, or
      the settling of an awaited handler. */
  datatype Event = Press(disabled: bool) | Done(outcome: Outcome)

  /** One event; `None` for a settlement with no handler awaited, which cannot
      occur. A press on a rendered-disabled button never reaches the handler. */
  function Step(s: State, e: Event): (r: Option<State>)
    ensures e.Press? && (s.loading || e.disabled) ==> r == Some(s)
    ensures e.Press? && !s.loading && !e.disabled ==> r.Some? && r.value.loading && r.value.pending == s.pending + 1
    ensures e.Done? ==> (r.None? <==> s.pending == 0)
    ensures e.Done? && r.Some? ==> !r.value.loading && r.value.pending == s.pending - 1
  {
    match e
    case Press(d) => if s.loading || d then Some(s) else Some(Click(s))
    case Done(o) => if s.pending == 0 then None else Some(Settle(s, o).0)
  }

  function Run(s: State, events: seq<Event>): Option<State>
    decreases |events|
  {
    if |events| == 0 then Some(s)
    else
      var next := Step(s, events[0]);
      if next.None? then None else Run(next.value, events[1..])
  }

  /** At most one handler is awaited, and the button is loading exactly while
      one is. */
  ghost predicate Guarded(s: State)
  {
    s.pending <= 1 && (s.loading <==> s.pending == 1)
  }

  lemma StepPreservesGuard(s: State, e: Event)
    requires Guarded(s)
    ensures Step(s, e).Some? ==> Guarded(Step(s, e).value)
  {
  }

  /** From the initial state, every run of presses and settlements keeps the
      guard. */
  lemma {:induction false} RunPreservesGuard(s: State, events: seq<Event>)
    requires Guarded(s)
    ensures Run(s, events).Some? ==> Guarded(Run(s, events).value)
    decreases |events|
  {
    if |events| > 0 {
      StepPreservesGuard(s, events[0]);
      var next := Step(s, events[0]);
      if next.Some? {
        RunPreservesGuard(next.value, events[1..]);
      }
    }
  }

  lemma InitialGuarded()
    ensures Guarded(Initial) && !Initial.loading
  {
  }

  /** A press on an idle, enabled button starts loading; any press while a
      handler is awaited is ignored. */
  lemma PressWhilePending(s: State, d: bool)
    requires Guarded(s)
    ensures s.pending == 0 && !d ==> Step(s, Press(d)) == Some(State(true, 1))
    ensures s.pending == 1 ==> Step(s, Press(d)) == Some(s)
  {
  }

  /** Whether the handler fulfils or rejects, the button returns to idle. */
  lemma SettleIgnoresOutcome(s: State)
    requires Guarded(s) && s.pending == 1
    ensures Step(s, Done(Fulfilled)) == Step(s, Done(Rejected)) == Some(Initial)
  {
  }

  /** While a handler is awaited the button is disabled, shows the loading icon
      and the loading indicator (or the children without one); when idle it
      shows exactly what the props give. */
  lemma RenderFollowsPending<N>(props: Props<N>, s: State)
    requires Guarded(s)
    ensures s.pending == 1 ==> Render(props, s).disabled
    ensures s.pending == 1 ==> Render(props, s).startIcon == props.loadingIcon
    ensures s.pending == 1 && props.loadingIndicator.Some? ==> Render(props, s).content == props.loadingIndicator.value
    ensures s.pending == 1 && props.loadingIndicator.None? ==> Render(props, s).content == props.children
    ensures s.pending == 0 ==> Render(props, s) == Rendered(props.disabled, props.startIcon, props.children)
  {
  }
}
