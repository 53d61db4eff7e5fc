/**
 Reconnecting after a failed transport: which URL is tried next, how long to wait, when to
 give up, and what happens when the application replaces the options meanwhile.
 */
module Reconnect {
  import opened Common

  /**
   The reconnect options. Durations are in milliseconds; the multiplier is a real number
   that the library converts to an unsigned integer before it multiplies.
   */
  datatype Options = Options(delay: nat, multiplier: real, maxDelay: nat, maxAttempts: nat)

  const DEFAULTS := Options(10, 2.0, 0x7FFF_FFFF_FFFF_FFFF, 0)

  function Factor(o: Options): nat {
    if o.multiplier <= 0.0 then 0 else o.multiplier.Floor
  }

  /** The connection's reconnect context: `current` is -1 for the original URL, else a failover. */
  datatype Context = Context(options: Options, delay: int, retries: nat, current: int, stop: bool)

  function Fresh(o: Options): Context {
    Context(o, 0, 0, -1, false)
  }

  /** Options set since they were last transferred to the context. */
  datatype Pending = Pending(options: Option<Options>, url: Option<string>, failovers: Option<seq<string>>)

  const NOTHING := Pending(None, None, None)

  datatype State = State(context: Option<Context>, url: string, failovers: seq<string>, pending: Pending)

  // ---------- The operations ----------

  /** `connection_options::update`: what is set replaces, the rest stays; an empty failover list is never set. */
  function Updated(p: Pending, q: Pending): Pending {
    Pending(if q.options.Some? then q.options else p.options,
            if q.url.Some? then q.url else p.url,
            if q.failovers.Some? && q.failovers.value != [] then q.failovers else p.failovers)
  }

  /** `apply_reconnect_urls`: a new URL restarts at the original, a new list at its first element. */
  function AppliedUrls(s: State): State {
    var p := s.pending;
    var install := p.failovers.Some? && p.failovers.value != [];
    var context := if (p.url.Some? || p.failovers.Some?) && s.context.None? then Some(Fresh(DEFAULTS)) else s.context;
    State(if context.Some? && install then Some(context.value.(current := 0))
          else if context.Some? && p.url.Some? then Some(context.value.(current := -1))
          else context,
          if p.url.Some? then p.url.value else s.url,
          if install then p.failovers.value else s.failovers,
          Pending(p.options, None, if install then None else p.failovers))
  }

  /** `apply_unbound`, on opening: new options start a new context. */
  function AppliedUnbound(s: State): State {
    var p := s.pending;
    if p.options.Some? || p.url.Some? || p.failovers.Some? then
      s.(context := Some(Fresh(if p.options.Some? then p.options.value else DEFAULTS)), pending := p.(options := None))
    else s
  }

  /** The URL to try, -1 for the original, and the context moved on to the next one. */
  function Advanced(c: Context, failovers: nat): Context {
    if c.current + 1 == failovers then c.(current := -1, retries := c.retries + 1)
    else c.(current := c.current + 1)
  }

  /** One reconnect attempt: transfer options, choose the URL, move on, open. */
  function Attempted(s: State): State
    requires s.context.Some?
  {
    var t := AppliedUrls(s);
    AppliedUnbound(t.(context := Some(Advanced(t.context.value, |t.failovers|))))
  }

  /** The index an attempt made now would use. */
  function Tried(s: State): int
    requires s.context.Some?
  {
    AppliedUrls(s).context.value.current
  }

  function NextDelay(c: Context): (r: (Context, int)) {
    if c.retries == 0 || c.current != -1 then (c, 0)
    else
      var grown := c.delay * Factor(c.options);
      var d := if c.retries == 1 then c.options.delay
               else if grown < c.options.maxDelay then grown else c.options.maxDelay;
      (c.(delay := d), d)
  }

  function CanReconnect(s: State, unauthorized: bool, stopping: bool): bool {
    && s.context.Some? && !s.context.value.stop
    && (stopping || (!unauthorized
                     && !(s.context.value.options.maxAttempts != 0
                          && s.context.value.retries >= s.context.value.options.maxAttempts)))
  }

  class Reconnector {
    var context: Option<Context>
    var url: string
    var failovers: seq<string>
    var pending: Pending

    ghost function View(): State
      reads this
    {
      State(context, url, failovers, pending)
    }

    ghost predicate Valid()
      reads this
    {
      Indexed(View())
    }

    /** `make_connection_lh`: the options given at connect are applied on opening. */
    constructor (url: string, options: Pending)
      ensures Valid()
      ensures View() == AppliedUnbound(State(None, url, [], Updated(NOTHING, options)))
    {
      this.url, failovers := url, [];
      var p := Updated(NOTHING, options);
      if p.options.Some? || p.url.Some? || p.failovers.Some? {
        context := Some(Fresh(if p.options.Some? then p.options.value else DEFAULTS));
        p := p.(options := None);
      } else {
        context := None;
      }
      pending := p;
    }

    method UpdateOptions(options: Pending)
      requires Valid()
      modifies this`pending
      ensures Valid()
      ensures View() == old(View()).(pending := Updated(old(pending), options))
    {
      pending := Updated(pending, options);
    }

    method ApplyReconnectUrls()
      requires Valid()
      modifies this
      ensures Valid()
      ensures View() == AppliedUrls(old(View()))
    {
      if (pending.url.Some? || pending.failovers.Some?) && context.None? {
        context := Some(Fresh(DEFAULTS));
      }
      if pending.url.Some? {
        url := pending.url.value;
        pending := pending.(url := None);
        context := Some(context.value.(current := -1));
      }
      if pending.failovers.Some? && pending.failovers.value != [] {
        failovers := pending.failovers.value;
        pending := pending.(failovers := None);
        context := Some(context.value.(current := 0));
      }
    }

    /** `reconnect`: returns the URL tried; the index into the failover list is always valid. */
    method Attempt() returns (tried: string)
      requires Valid() && context.Some?
      modifies this
      ensures Valid()
      ensures View() == Attempted(old(View()))
      ensures var t, i := AppliedUrls(old(View())), Tried(old(View()));
        -1 <= i < |t.failovers| && tried == if i == -1 then t.url else t.failovers[i]
    {
      ApplyReconnectUrls();
      var c := context.value;
      tried := if c.current == -1 then url else failovers[c.current];
      c := c.(current := c.current + 1);
      if c.current == |failovers| {
        c := c.(current := -1, retries := c.retries + 1);
      }
      context := Some(c);
      if pending.options.Some? || pending.url.Some? || pending.failovers.Some? {
        context := Some(Fresh(if pending.options.Some? then pending.options.value else DEFAULTS));
        pending := pending.(options := None);
      }
    }

    /**
     `next_delay`: `bound` is the upper end of the interval the delay is drawn from; the lower end is
     the configured delay, or zero.
     */
    method SetupReconnect() returns (bound: int)
      requires Valid() && context.Some?
      modifies this`context
      ensures Valid()
      ensures context == Some(NextDelay(old(context).value).0) && bound == NextDelay(old(context).value).1
    {
      var c := context.value;
      if c.retries == 0 || c.current != -1 {
        return 0;
      }
      if c.retries == 1 {
        c := c.(delay := c.options.delay);
      } else {
        var grown := c.delay * Factor(c.options);
        c := c.(delay := if grown < c.options.maxDelay then grown else c.options.maxDelay);
      }
      context := Some(c);
      return c.delay;
    }

    /** `can_reconnect`. */
    method MayReconnect(unauthorized: bool, stopping: bool) returns (ok: bool)
      requires Valid()
      ensures ok <==> CanReconnect(View(), unauthorized, stopping)
    {
      if context.None? || context.value.stop {
        return false;
      }
      if stopping {
        return true;
      }
      if unauthorized {
        return false;
      }
      var max := context.value.options.maxAttempts;
      return max == 0 || context.value.retries < max;
    }

    method ResetReconnect()
      requires Valid()
      modifies this`context
      ensures Valid()
      ensures context == if old(context).None? then None
                         else Some(old(context).value.(delay := 0, retries := 0, current := -1))
    {
      if context.Some? {
        context := Some(context.value.(delay := 0, retries := 0, current := -1));
      }
    }
  }

  // ---------- The index is always valid ----------

  /** The next index is -1 or a place in the failover list, and a pending list is not empty. */
  ghost predicate Indexed(s: State) {
    && (s.context.Some? ==> -1 <= s.context.value.current < |s.failovers|)
    && (s.pending.failovers.Some? ==> s.pending.failovers.value != [])
  }

  datatype Action =
    | Fail(unauthorized: bool, stopping: bool)
    | Fire
    | Open
    | Update(options: Pending)
    | Close

  /** A connection that is being tried or is up, that waits to reconnect, or that has been given up. */
  datatype Phase = Live | Waiting | Refused

  datatype System = System(state: State, phase: Phase, tried: seq<int>)

  function Next(y: System, a: Action): System {
    var s := y.state;
    match a
    case Fail(unauthorized, stopping) =>
      if y.phase != Live then y
      else if !CanReconnect(s, unauthorized, stopping) then y.(phase := Phase.Refused)
      else y.(state := s.(context := Some(NextDelay(s.context.value).0)), phase := Waiting)
    case Fire =>
      if y.phase == Waiting && s.context.Some?
      then System(Attempted(s), Live, y.tried + [Tried(s)]) else y
    case Open =>
      if y.phase == Live && s.context.Some?
      then y.(state := s.(context := Some(s.context.value.(delay := 0, retries := 0, current := -1)))) else y
    case Update(options) => y.(state := s.(pending := Updated(s.pending, options)))
    case Close =>
      if s.context.Some? then y.(state := s.(context := Some(s.context.value.(stop := true)))) else y
  }

  function Run(y: System, acts: seq<Action>): System {
    if acts == [] then y else Next(Run(y, acts[..|acts| - 1]), acts[|acts| - 1])
  }

  function Start(url: string, options: Pending): System {
    System(AppliedUnbound(State(None, url, [], Updated(NOTHING, options))), Live, [])
  }

  lemma IndexedKept(y: System, a: Action)
    requires Indexed(y.state)
    ensures Indexed(Next(y, a).state)
  {
  }

  /** In every run, whatever options are replaced when, each attempt uses -1 or a valid index. */
  lemma {:induction false} IndexAlwaysValid(url: string, options: Pending, acts: seq<Action>)
    ensures var y := Run(Start(url, options), acts);
      && Indexed(y.state)
      && (y.state.context.Some? ==> -1 <= Tried(y.state) < |AppliedUrls(y.state).failovers|)
  {
    if acts != [] {
      IndexAlwaysValid(url, options, acts[..|acts| - 1]);
      IndexedKept(Run(Start(url, options), acts[..|acts| - 1]), acts[|acts| - 1]);
    }
  }

  // ---------- Rounds ----------

  /** How far the attempts have come: complete rounds, and the place in the current one. */
  function Position(s: State): int
    requires s.context.Some?
  {
    s.context.value.retries * (|s.failovers| + 1) + s.context.value.current + 1
  }

  /** The index the attempt at a position uses: the original URL first, then each failover in order. */
  function IndexAt(position: nat, failovers: nat): int {
    position % (failovers + 1) - 1
  }

  /** Reconnect is on, and no new options wait to be transferred. */
  ghost predicate Steady(y: System) {
    y.state.context.Some? && y.state.pending == NOTHING && Indexed(y.state)
  }

  predicate Retrying(a: Action) {
    (a.Fail? && !a.stopping) || a.Fire?
  }

  lemma {:induction false} NextMultiple(q: nat, r: nat, n: nat)
    requires q < r
    ensures r * n >= q * n + n
    decreases r
  {
    if q + 1 < r {
      NextMultiple(q, r - 1, n);
    }
    assert r * n == (r - 1) * n + n;
  }

  lemma PositionMod(r: nat, n: nat, c: nat)
    requires c < n
    ensures (r * n + c) % n == c
  {
    var x := r * n + c;
    var q, m := x / n, x % n;
    assert x == n * q + m;
    if q < r {
      NextMultiple(q, r, n);
    } else if q > r {
      NextMultiple(r, q, n);
    }
  }

  /** An attempt uses the index of its position and moves to the next position. */
  lemma AttemptMovesOn(s: State)
    requires s.context.Some? && s.pending == NOTHING && Indexed(s)
    ensures var s' := Attempted(s);
      && s'.context.Some? && s'.pending == NOTHING && Indexed(s') && s'.failovers == s.failovers
      && s'.context.value.options == s.context.value.options
      && Position(s) >= 0 && Position(s') == Position(s) + 1
      && Tried(s) == IndexAt(Position(s), |s.failovers|)
  {
    var c, n := s.context.value, |s.failovers| + 1;
    PositionMod(c.retries, n, c.current + 1);
    assert (c.retries + 1) * n == c.retries * n + n;
  }

  lemma StepOfRetrying(y: System, a: Action)
    requires Steady(y) && Retrying(a)
    ensures var y' := Next(y, a);
      && Steady(y') && y'.state.failovers == y.state.failovers
      && y'.state.context.value.options == y.state.context.value.options
      && Position(y.state) >= 0
      && if y'.tried == y.tried then Position(y'.state) == Position(y.state)
         else Position(y'.state) == Position(y.state) + 1
              && y'.tried == y.tried + [IndexAt(Position(y.state), |y.state.failovers|)]
  {
    if a.Fire? {
      AttemptMovesOn(y.state);
    }
  }

  /**
   While attempts only fail and are retried, they go round in order: the attempt at
   position p uses the original URL when p is a multiple of the round length, and
   otherwise the failover of that place in the round.
   */
  lemma {:induction false} RoundsInOrder(y: System, acts: seq<Action>)
    requires Steady(y)
    requires forall i :: 0 <= i < |acts| ==> Retrying(acts[i])
    ensures var y' := Run(y, acts);
      && Steady(y') && y'.state.failovers == y.state.failovers
      && y'.state.context.value.options == y.state.context.value.options
      && y.tried <= y'.tried && Position(y.state) >= 0
      && Position(y'.state) == Position(y.state) + |y'.tried| - |y.tried|
      && forall i :: |y.tried| <= i < |y'.tried| ==>
           y'.tried[i] == IndexAt(Position(y.state) + i - |y.tried|, |y.state.failovers|)
  {
    if acts == [] {
      StepOfRetrying(y, Fire);
    } else {
      var init := acts[..|acts| - 1];
      RoundsInOrder(y, init);
      StepOfRetrying(Run(y, init), acts[|acts| - 1]);
    }
  }

  lemma MulMonotone(a: nat, b: nat, n: nat)
    requires a <= b
    ensures a * n <= b * n
  {
  }

  /** The limit on rounds is respected, and waiting for an attempt means that it is not reached. */
  ghost predicate Limited(y: System) {
    y.state.context.Some? && y.state.context.value.options.maxAttempts != 0 ==>
      var c := y.state.context.value;
      && c.retries <= c.options.maxAttempts
      && (c.retries == c.options.maxAttempts ==> c.current == -1)
      && (y.phase == Waiting ==> c.retries < c.options.maxAttempts)
  }

  lemma LimitedKept(y: System, a: Action)
    requires Limited(y) && Indexed(y.state) && !(a.Fail? && a.stopping)
    ensures Limited(Next(y, a))
  {
  }

  /** In every run of a container that does not stop, with any changes of options and resets. */
  lemma {:induction false} LimitedOnRuns(url: string, options: Pending, acts: seq<Action>)
    requires forall i :: 0 <= i < |acts| ==> !(acts[i].Fail? && acts[i].stopping)
    ensures Limited(Run(Start(url, options), acts)) && Indexed(Run(Start(url, options), acts).state)
  {
    IndexAlwaysValid(url, options, acts);
    if acts != [] {
      var init := acts[..|acts| - 1];
      LimitedOnRuns(url, options, init);
      LimitedKept(Run(Start(url, options), init), acts[|acts| - 1]);
    }
  }

  /** Every attempt transfers all options that wait. */
  lemma AttemptTransfers(s: State)
    requires s.context.Some? && Indexed(s)
    ensures Attempted(s).context.Some? && Attempted(s).pending == NOTHING && Indexed(Attempted(s))
  {
  }

  /** The position is at most the number of attempts in all the rounds allowed. */
  lemma PositionLimited(y: System)
    requires y.state.context.Some? && Limited(y) && Indexed(y.state)
    ensures var c, n := y.state.context.value, |y.state.failovers| + 1;
      c.options.maxAttempts != 0 ==> Position(y.state) <= c.options.maxAttempts * n
  {
    var c, n := y.state.context.value, |y.state.failovers| + 1;
    if c.options.maxAttempts != 0 && c.retries < c.options.maxAttempts {
      assert (c.retries + 1) * n == c.retries * n + n;
      MulMonotone(c.retries + 1, c.options.maxAttempts, n);
    }
  }

  lemma {:induction false} RunAppend(y: System, before: seq<Action>, acts: seq<Action>)
    ensures Run(y, before + acts) == Run(Run(y, before), acts)
  {
    if acts == [] {
      assert before + acts == before;
    } else {
      var init, all := acts[..|acts| - 1], before + acts;
      RunAppend(y, before, init);
      assert all[..|all| - 1] == before + init && all[|all| - 1] == acts[|acts| - 1];
    }
  }

  /**
   From any state a connection reaches in which no options wait to be transferred: without a
   reset, an option change or a stop, at most max_attempts rounds of attempts are made, less
   the position it has come to.
   */
  lemma AttemptsAreBounded(url: string, options: Pending, before: seq<Action>, acts: seq<Action>)
    requires forall i :: 0 <= i < |before| ==> !(before[i].Fail? && before[i].stopping)
    requires Steady(Run(Start(url, options), before))
    requires forall i :: 0 <= i < |acts| ==> Retrying(acts[i])
    ensures var y := Run(Start(url, options), before);
      var o, n := y.state.context.value.options, |y.state.failovers| + 1;
      o.maxAttempts != 0 ==>
        |Run(y, acts).tried| - |y.tried| <= o.maxAttempts * n - Position(y.state) <= o.maxAttempts * n
  {
    var y := Run(Start(url, options), before);
    var n := Run(y, acts);
    RoundsInOrder(y, acts);
    var limit := y.state.context.value.options.maxAttempts * (|y.state.failovers| + 1);
    assert y.state.context.value.options.maxAttempts != 0 ==> Position(n.state) <= limit by {
      RunAppend(Start(url, options), before, acts);
      LimitedOnRuns(url, options, before + acts);
      PositionLimited(n);
    }
  }

  /** The failover list a connection is opened with. */
  function ListOf(options: Pending): seq<string> {
    if options.failovers.Some? then options.failovers.value else []
  }

  /** Since it was opened with these options, the connection has only failed and been retried. */
  ghost predicate SinceOpened(url: string, options: Pending, y: System) {
    var s := Start(url, options).state;
    && s.context.Some?
    && (y.tried == [] ==> y.state == s)
    && (y.tried != [] ==>
          && Steady(y) && y.state.failovers == ListOf(options)
          && y.state.context.value.options == s.context.value.options
          && |y.tried| <= Position(y.state))
  }

  lemma FirstAttempt(url: string, options: Pending)
    requires Start(url, options).state.context.Some?
    ensures var s := Start(url, options).state;
      var t := Attempted(s);
      && t.context.Some? && t.pending == NOTHING && Indexed(t) && t.failovers == ListOf(options)
      && t.context.value.options == s.context.value.options && 1 <= Position(t)
  {
  }

  lemma SinceOpenedKept(url: string, options: Pending, y: System, a: Action)
    requires SinceOpened(url, options, y) && Retrying(a)
    ensures SinceOpened(url, options, Next(y, a))
  {
    if y.tried == [] {
      FirstAttempt(url, options);
    } else {
      StepOfRetrying(y, a);
    }
  }

  lemma {:induction false} SinceOpenedOnRuns(url: string, options: Pending, acts: seq<Action>)
    requires Start(url, options).state.context.Some?
    requires forall i :: 0 <= i < |acts| ==> Retrying(acts[i])
    ensures SinceOpened(url, options, Run(Start(url, options), acts))
  {
    if acts != [] {
      var init := acts[..|acts| - 1];
      SinceOpenedOnRuns(url, options, init);
      SinceOpenedKept(url, options, Run(Start(url, options), init), acts[|acts| - 1]);
    }
  }

  /**
   A connection opened with any options and any failover list makes, without a reset, an
   option change or a stop, at most max_attempts times the number of its URLs attempts.
   */
  lemma OpenedAttemptsAreBounded(url: string, options: Pending, acts: seq<Action>)
    requires Start(url, options).state.context.Some?
    requires forall i :: 0 <= i < |acts| ==> Retrying(acts[i])
    ensures var max := Start(url, options).state.context.value.options.maxAttempts;
      max != 0 ==> |Run(Start(url, options), acts).tried| <= max * (|ListOf(options)| + 1)
  {
    var y := Run(Start(url, options), acts);
    SinceOpenedOnRuns(url, options, acts);
    LimitedOnRuns(url, options, acts);
    if y.tried != [] {
      PositionLimited(y);
    }
  }

  /** The first attempt after a failover list is installed uses its first element. */
  lemma InstalledListComesFirst(s: State)
    requires s.context.Some? && s.pending.failovers.Some? && s.pending.failovers.value != []
    ensures Tried(s) == 0 && AppliedUrls(s).failovers == s.pending.failovers.value
  {
  }

  // ---------- Back-off ----------

  function Min(a: int, b: int): int {
    if a < b then a else b
  }

  function Pow(b: nat, e: nat): nat {
    if e == 0 then 1 else b * Pow(b, e - 1)
  }

  /** The delay after round `r`, as it grows from round to round. */
  function Backoff(o: Options, r: nat): int
    requires 0 < r
  {
    if r == 1 then o.delay else Min(o.maxDelay, Backoff(o, r - 1) * Factor(o))
  }

  /** The recorded delay is the one of the last round boundary that was waited at. */
  ghost predicate Paced(y: System) {
    y.state.context.Some? ==>
      var c := y.state.context.value;
      && (y.phase == Waiting || c.current != -1 ==> c.retries >= 1 ==> c.delay == Backoff(c.options, c.retries))
      && (y.phase == Live && c.current == -1 && c.retries >= 2 ==> c.delay == Backoff(c.options, c.retries - 1))
  }

  lemma PacedAfterFail(y: System, a: Action)
    requires a.Fail? && Paced(y)
    ensures Paced(Next(y, a))
  {
  }

  lemma PacedAfterFire(y: System)
    requires Paced(y) && Indexed(y.state)
    ensures Paced(Next(y, Fire))
  {
  }

  lemma PacedKept(y: System, a: Action)
    requires Paced(y) && Indexed(y.state)
    ensures Paced(Next(y, a))
  {
    match a
    case Fail(_, _) => PacedAfterFail(y, a);
    case Fire => PacedAfterFire(y);
    case _ =>
  }

  lemma {:induction false} PacedOnRuns(url: string, options: Pending, acts: seq<Action>)
    ensures Paced(Run(Start(url, options), acts))
  {
    if acts != [] {
      var init := acts[..|acts| - 1];
      PacedOnRuns(url, options, init);
      IndexAlwaysValid(url, options, init);
      PacedKept(Run(Start(url, options), init), acts[|acts| - 1]);
    }
  }

  /**
   In every run, with any changes of options: a failed connection waits only when a round
   is complete, and then at most the back-off of that round.
   */
  lemma WaitsOnlyBetweenRounds(url: string, options: Pending, acts: seq<Action>)
    ensures var y := Run(Start(url, options), acts);
      y.phase == Live && y.state.context.Some? ==>
        var c := y.state.context.value;
        NextDelay(c).1 == if c.retries >= 1 && c.current == -1 then Backoff(c.options, c.retries) else 0
  {
    PacedOnRuns(url, options, acts);
  }

  /** Options under which the delay is capped exponential back-off. */
  predicate Sensible(o: Options) {
    o.delay <= o.maxDelay && 1 <= Factor(o)
  }

  lemma {:induction false} PowPositive(b: nat, e: nat)
    requires 1 <= b
    ensures 1 <= Pow(b, e)
  {
    if e > 0 {
      PowPositive(b, e - 1);
      MulMonotone(1, b, Pow(b, e - 1));
    }
  }

  /** Capping at every round is the same as capping once. */
  lemma {:induction false} BackoffIsCappedPower(o: Options, r: nat)
    requires Sensible(o) && 0 < r
    ensures Backoff(o, r) == Min(o.maxDelay, o.delay * Pow(Factor(o), r - 1))
  {
    if r > 1 {
      BackoffIsCappedPower(o, r - 1);
      CapGrows(o.maxDelay, o.delay * Pow(Factor(o), r - 2), Factor(o));
      PowStep(o, r);
    } else {
      assert Pow(Factor(o), 0) == 1;
    }
  }

  lemma PowStep(o: Options, r: nat)
    requires 1 < r
    ensures o.delay * Pow(Factor(o), r - 2) * Factor(o) == o.delay * Pow(Factor(o), r - 1)
  {
    var k, p := Factor(o), Pow(Factor(o), r - 2);
    assert Pow(k, r - 1) == k * p;
    assert o.delay * p * k == o.delay * (k * p);
  }

  lemma CapGrows(cap: nat, x: nat, k: nat)
    requires 1 <= k
    ensures Min(cap, Min(cap, x) * k) == Min(cap, x * k)
  {
    MulMonotone(1, k, cap);
    if cap <= x {
      MulMonotone(cap, x, k);
    }
  }

  /** The delays never shrink from one round to the next. */
  lemma BackoffIsMonotone(o: Options, r: nat)
    requires Sensible(o) && 0 < r
    ensures Backoff(o, r) <= Backoff(o, r + 1)
  {
    BackoffWithinCap(o, r);
    CapKeeps(o.maxDelay, Backoff(o, r), Factor(o));
  }

  lemma BackoffWithinCap(o: Options, r: nat)
    requires Sensible(o) && 0 < r
    ensures 0 <= Backoff(o, r) <= o.maxDelay
  {
    BackoffIsCappedPower(o, r);
  }

  lemma CapKeeps(cap: nat, b: nat, k: nat)
    requires b <= cap && 1 <= k
    ensures b <= Min(cap, b * k)
  {
    MulMonotone(1, k, b);
  }

  /**
   The delay is drawn between the configured delay and the back-off, and that interval
   is never empty, in any round, exactly under these options.
   */
  lemma IntervalNeverEmptyIff(o: Options)
    ensures (forall r: nat :: 0 < r ==> o.delay <= Backoff(o, r)) <==>
            o.delay <= o.maxDelay && (1 <= Factor(o) || o.delay == 0)
  {
    if o.delay <= o.maxDelay && (1 <= Factor(o) || o.delay == 0) {
      forall r: nat | 0 < r ensures o.delay <= Backoff(o, r) {
        IntervalNotEmpty(o, r);
      }
    } else {
      assert Backoff(o, 1) == o.delay;
      assert Backoff(o, 2) == Min(o.maxDelay, o.delay * Factor(o));
      assert Backoff(o, 2) < o.delay;
    }
  }

  lemma {:induction false} IntervalNotEmpty(o: Options, r: nat)
    requires o.delay <= o.maxDelay && (1 <= Factor(o) || o.delay == 0) && 0 < r
    ensures o.delay <= Backoff(o, r)
  {
    if r > 1 {
      IntervalNotEmpty(o, r - 1);
      if 1 <= Factor(o) {
        MulMonotone(1, Factor(o), Backoff(o, r - 1));
      }
    }
  }

  /** A multiplier between one and two does not make the delay grow: its fraction is dropped. */
  lemma FractionIsDropped(o: Options, r: nat)
    requires 1.0 <= o.multiplier < 2.0 && o.delay <= o.maxDelay && 0 < r
    ensures Backoff(o, r) == o.delay
  {
    BackoffIsCappedPower(o, r);
    PowOfOne(r - 1);
  }

  lemma {:induction false} PowOfOne(e: nat)
    ensures Pow(1, e) == 1
  {
    if e > 0 {
      PowOfOne(e - 1);
    }
  }

  // ---------- The formula with the multiplier as configured ----------

  function RealPow(x: real, e: nat): real {
    if e == 0 then 1.0 else x * RealPow(x, e - 1)
  }

  function RealMin(x: real, y: real): real {
    if x < y then x else y
  }

  /** The back-off of round r with the multiplier taken as the real number it is configured as. */
  function Documented(o: Options, r: nat): real
    requires 0 < r
  {
    RealMin(o.maxDelay as real, o.delay as real * RealPow(o.multiplier, r - 1))
  }

  lemma RealMulMonotone(x: real, y: real, z: real)
    requires x <= y && 0.0 <= z
    ensures x * z <= y * z && z * x <= z * y
  {
    assert (y - x) * z >= 0.0;
  }

  lemma {:induction false} RealPowGrows(x: real, e: nat)
    requires 1.0 <= x
    ensures 1.0 <= RealPow(x, e) && x <= RealPow(x, e + 1)
  {
    if e > 0 {
      RealPowGrows(x, e - 1);
    }
    RealMulMonotone(1.0, RealPow(x, e), x);
  }

  lemma {:induction false} RealPowIsPow(k: nat, e: nat)
    ensures RealPow(k as real, e) == Pow(k, e) as real
  {
    if e > 0 {
      RealPowIsPow(k, e - 1);
      CastProduct(k, Pow(k, e - 1));
    }
  }

  lemma CastProduct(x: int, y: int)
    ensures (x * y) as real == x as real * y as real
  {
  }

  /** The whole part of a multiplier is the factor the code uses. */
  lemma FactorIsFloor(o: Options)
    requires 1.0 <= o.multiplier
    ensures 1 <= Factor(o) && Factor(o) as real <= o.multiplier
  {
  }

  lemma DocumentedWhole(o: Options, r: nat)
    requires Sensible(o) && o.multiplier == Factor(o) as real && 0 < r
    ensures Backoff(o, r) as real == Documented(o, r)
  {
    RealPowIsPow(Factor(o), r - 1);
    DocumentedValue(o, r, Pow(Factor(o), r - 1));
    BackoffIsCappedPower(o, r);
  }

  lemma DocumentedValue(o: Options, r: nat, p: nat)
    requires 0 < r && RealPow(o.multiplier, r - 1) == p as real
    ensures Documented(o, r) == Min(o.maxDelay, o.delay * p) as real
  {
    CapCast(o.maxDelay, o.delay, p);
  }

  lemma CapCast(cap: nat, d: nat, p: nat)
    ensures Min(cap, d * p) as real == RealMin(cap as real, d as real * p as real)
  {
    CastProduct(d, p);
  }

  lemma DocumentedZero(o: Options, r: nat)
    requires Sensible(o) && o.delay == 0 && 0 < r
    ensures Backoff(o, r) as real == Documented(o, r)
  {
    BackoffIsCappedPower(o, r);
    var p, q := Pow(Factor(o), r - 1), RealPow(o.multiplier, r - 1);
    assert o.delay * p == 0 && o.delay as real * q == 0.0;
  }

  lemma {:induction false} BackoffCapped(o: Options, r: nat)
    requires Sensible(o) && o.delay * Factor(o) >= o.maxDelay && 2 <= r
    ensures Backoff(o, r) == o.maxDelay
  {
    if r > 2 {
      BackoffCapped(o, r - 1);
      MulMonotone(1, Factor(o), o.maxDelay);
    } else {
      assert Backoff(o, 1) == o.delay;
    }
  }

  lemma RealAtLeast(d: nat, f: nat, cap: nat)
    requires d * f >= cap
    ensures d as real * f as real >= cap as real
  {
    CastProduct(d, f);
  }

  lemma RealProductReaches(d: real, f: real, m: real, q: real, cap: real)
    requires 0.0 <= d && f <= m <= q && d * f >= cap
    ensures d * q >= cap
  {
    RealMulMonotone(f, q, d);
  }

  lemma DocumentedReaches(o: Options, r: nat, q: real)
    requires 2 <= r && q == RealPow(o.multiplier, r - 1) && o.delay as real * q >= o.maxDelay as real
    ensures Documented(o, r) == o.maxDelay as real
  {
  }

  /** When the second round reaches the cap, so do all later ones, with or without the fraction. */
  lemma DocumentedCapped(o: Options, r: nat)
    requires Sensible(o) && 1.0 <= o.multiplier && o.delay * Factor(o) >= o.maxDelay && 2 <= r
    ensures Backoff(o, r) as real == Documented(o, r)
  {
    var d, q := o.delay as real, RealPow(o.multiplier, r - 1);
    FactorIsFloor(o);
    RealPowGrows(o.multiplier, r - 2);
    RealAtLeast(o.delay, Factor(o), o.maxDelay);
    RealProductReaches(d, Factor(o) as real, o.multiplier, q, o.maxDelay as real);
    DocumentedReaches(o, r, q);
    BackoffCapped(o, r);
  }

  lemma DocumentedFirst(o: Options)
    requires o.delay <= o.maxDelay
    ensures Backoff(o, 1) as real == Documented(o, 1)
  {
    assert RealPow(o.multiplier, 0) == 1.0;
    assert o.delay as real * 1.0 == o.delay as real;
  }

  lemma RealMinAbove(x: real, cap: real, d: real, f: real, m: real)
    requires x == d * f && 0.0 < d && f < m && x < cap
    ensures x < RealMin(cap, d * m)
  {
    assert d * (m - f) > 0.0;
    assert d * m - d * f == d * (m - f);
  }

  lemma SecondRound(o: Options)
    requires o.delay * Factor(o) < o.maxDelay
    ensures Backoff(o, 2) == o.delay * Factor(o)
    ensures Documented(o, 2) == RealMin(o.maxDelay as real, o.delay as real * o.multiplier)
  {
    assert Backoff(o, 1) == o.delay;
    assert RealPow(o.multiplier, 0) == 1.0;
    assert RealPow(o.multiplier, 1) == o.multiplier;
  }

  lemma DocumentedFails(o: Options)
    requires 1.0 <= o.multiplier && o.delay > 0
    requires o.multiplier != Factor(o) as real && o.delay * Factor(o) < o.maxDelay
    ensures (Backoff(o, 2) as real) < Documented(o, 2)
  {
    FactorIsFloor(o);
    SecondRound(o);
    var x := o.delay * Factor(o);
    CastProduct(o.delay, Factor(o));
    RealMinAbove(x as real, o.maxDelay as real, o.delay as real, Factor(o) as real, o.multiplier);
  }

  /**
   The back-off follows the documented formula in every round, with the multiplier as
   configured, if and only if there is no delay, the multiplier is a whole number, or the
   second round already reaches the cap.
   */
  lemma DocumentedIff(o: Options)
    requires o.delay <= o.maxDelay && 1.0 <= o.multiplier
    ensures (forall r: nat :: 0 < r ==> Backoff(o, r) as real == Documented(o, r)) <==>
            o.delay == 0 || o.multiplier == Factor(o) as real || o.delay * Factor(o) >= o.maxDelay
  {
    FactorIsFloor(o);
    if o.delay == 0 || o.multiplier == Factor(o) as real || o.delay * Factor(o) >= o.maxDelay {
      forall r: nat | 0 < r ensures Backoff(o, r) as real == Documented(o, r) {
        if o.delay == 0 {
          DocumentedZero(o, r);
        } else if o.multiplier == Factor(o) as real {
          DocumentedWhole(o, r);
        } else if r == 1 {
          DocumentedFirst(o);
        } else {
          DocumentedCapped(o, r);
        }
      }
    } else {
      DocumentedFails(o);
    }
  }
}
