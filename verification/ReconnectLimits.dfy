/**
 When a connection is given up, exactly, how many attempts that makes, and which options,
 URL and failover list are in force, over every run with any changes of options.
 */
module ReconnectLimits {
  import opened Common
  import opened Reconnect

  // ---------- When a failed connection is given up ----------

  /** The connection is up or being tried, reconnect is on, and the application has not closed it. */
  predicate Reconnects(y: System) {
    y.phase == Live && y.state.context.Some? && !y.state.context.value.stop
  }

  /** All the rounds of attempts allowed have been made. */
  predicate Exhausted(s: State)
    requires s.context.Some?
  {
    s.context.value.options.maxAttempts != 0 &&
    Position(s) == s.context.value.options.maxAttempts * (|s.failovers| + 1)
  }

  predicate NeverStops(acts: seq<Action>) {
    forall i :: 0 <= i < |acts| ==> !(acts[i].Fail? && acts[i].stopping)
  }

  lemma ExhaustedIff(y: System)
    requires y.state.context.Some? && Limited(y) && Indexed(y.state)
    ensures var c := y.state.context.value;
      Exhausted(y.state) <==> c.options.maxAttempts != 0 && c.retries == c.options.maxAttempts
  {
    var c, n := y.state.context.value, |y.state.failovers| + 1;
    if c.options.maxAttempts != 0 && c.retries < c.options.maxAttempts {
      assert (c.retries + 1) * n == c.retries * n + n;
      MulMonotone(c.retries + 1, c.options.maxAttempts, n);
    }
  }

  /**
   In every run of a container that does not stop, a failure is given up if and only if the
   failure is one of authentication or all the rounds of attempts allowed have been made.
   */
  lemma GivesUpIff(url: string, options: Pending, acts: seq<Action>, unauthorized: bool)
    requires NeverStops(acts) && Reconnects(Run(Start(url, options), acts))
    ensures var y := Run(Start(url, options), acts);
      Next(y, Fail(unauthorized, false)).phase == if unauthorized || Exhausted(y.state) then Phase.Refused else Waiting
  {
    LimitedOnRuns(url, options, acts);
    ExhaustedIff(Run(Start(url, options), acts));
  }

  /**
   Whatever the state: without reconnect, or closed by the application, a failed connection
   is given up; otherwise, while the container stops, it always seems to wait.
   */
  lemma FailEffect(y: System, unauthorized: bool, stopping: bool)
    requires y.phase == Live
    ensures var n := Next(y, Fail(unauthorized, stopping));
      && (!Reconnects(y) ==> n == y.(phase := Phase.Refused))
      && (Reconnects(y) && stopping ==> n.phase == Waiting)
      && n.tried == y.tried && n.state.pending == y.state.pending
      && n.state.url == y.state.url && n.state.failovers == y.state.failovers
      && (Reconnects(y) ==> n.state.context.Some? && Position(n.state) == Position(y.state))
  {
  }

  /** An attempt is made exactly when the wait is over; closing stops the attempts at the next failure. */
  lemma FireEffect(y: System)
    ensures |Next(y, Fire).tried| == |y.tried| + (if y.phase == Waiting && y.state.context.Some? then 1 else 0)
    ensures y.phase == Waiting && y.state.context.Some? ==> Next(y, Fire).phase == Live
    ensures !(y.phase == Waiting && y.state.context.Some?) ==> Next(y, Fire) == y
  {
  }

  lemma CloseEffect(y: System)
    requires y.phase == Live
    ensures !Reconnects(Next(y, Action.Close)) && Next(Next(y, Action.Close), Fail(false, true)).phase == Phase.Refused
  {
  }

  /** A connection that opens starts its rounds again, at the original URL and without delay. */
  lemma OpenStartsOver(y: System)
    ensures y.phase != Live ==> Next(y, Action.Open) == y
    ensures Reconnects(y) ==>
      var n := Next(y, Action.Open);
      && Reconnects(n) && Position(n.state) == 0 && n.state.context.value.delay == 0
      && n.state.failovers == y.state.failovers && n.state.pending == y.state.pending && n.tried == y.tried
      && n.state.context.value.options == y.state.context.value.options
      && (y.state.pending == NOTHING ==> Tried(n.state) == -1)
  {
  }

  // ---------- How many attempts that makes ----------

  const ONCE := [Fail(false, false), Fire]

  /** The connection fails and is tried again, k times. */
  function Retries(k: nat): (acts: seq<Action>)
    ensures |acts| == 2 * k
    ensures NeverStops(acts) && forall i :: 0 <= i < |acts| ==> Retrying(acts[i])
  {
    if k == 0 then [] else Retries(k - 1) + ONCE
  }

  lemma TwoMore(y: System, acts: seq<Action>)
    ensures Run(y, acts + ONCE) == Next(Next(Run(y, acts), Fail(false, false)), Fire)
  {
    var all := acts + ONCE;
    assert all[..|all| - 1] == acts + [Fail(false, false)];
    assert (acts + [Fail(false, false)])[..|acts|] == acts;
  }

  lemma RunOfRetries(y: System, k: nat)
    requires k > 0
    ensures Run(y, Retries(k)) == Next(Next(Run(y, Retries(k - 1)), Fail(false, false)), Fire)
  {
    TwoMore(y, Retries(k - 1));
  }

  /** The attempts still allowed. */
  function Remaining(s: State): int
    requires s.context.Some?
  {
    s.context.value.options.maxAttempts * (|s.failovers| + 1) - Position(s)
  }

  lemma OpenKept(y: System)
    requires Reconnects(y) && Steady(y) && Next(y, Fail(false, false)).phase == Waiting
    ensures Reconnects(Next(Next(y, Fail(false, false)), Fire))
  {
  }

  /** One failure and the attempt after it, if it is not given up. */
  lemma OneRetry(url: string, options: Pending, acts: seq<Action>)
    requires NeverStops(acts) && Reconnects(Run(Start(url, options), acts)) && Steady(Run(Start(url, options), acts))
    ensures var y := Run(Start(url, options), acts);
      var n := Next(Next(y, Fail(false, false)), Fire);
      if Exhausted(y.state) then n.phase == Phase.Refused && n.tried == y.tried
      else Reconnects(n) && Steady(n) && |n.tried| == |y.tried| + 1
           && Position(n.state) == Position(y.state) + 1 && n.state.failovers == y.state.failovers
           && n.state.context.value.options == y.state.context.value.options
  {
    var y := Run(Start(url, options), acts);
    GivesUpIff(url, options, acts, false);
    StepOfRetrying(y, Fail(false, false));
    if !Exhausted(y.state) {
      OpenKept(y);
      StepOfRetrying(Next(y, Fail(false, false)), Fire);
    }
  }

  /** From `y` to `n`, k failures have led to exactly the attempts still allowed, and then it was given up. */
  ghost predicate MadeExactly(y: System, n: System, k: nat)
    requires y.state.context.Some?
  {
    if y.state.context.value.options.maxAttempts == 0 || k <= Remaining(y.state)
    then Reconnects(n) && Steady(n) && |n.tried| == |y.tried| + k && Position(n.state) == Position(y.state) + k
         && n.state.failovers == y.state.failovers
         && n.state.context.value.options == y.state.context.value.options
    else n.phase == Phase.Refused && |n.tried| == |y.tried| + Remaining(y.state)
  }

  lemma OneMore(url: string, options: Pending, acts: seq<Action>, y: System, m: System, k: nat)
    requires NeverStops(acts) && m == Run(Start(url, options), acts)
    requires y.state.context.Some? && MadeExactly(y, m, k)
    ensures MadeExactly(y, Next(Next(m, Fail(false, false)), Fire), k + 1)
  {
    if m.phase != Phase.Refused {
      OneRetry(url, options, acts);
    }
  }

  /**
   From every state a connection reaches in which it is open and no options wait: failing
   again and again, it makes exactly the attempts still allowed, and is then given up; without
   a limit it is never given up.
   */
  lemma {:induction false} AttemptsExactly(url: string, options: Pending, before: seq<Action>, k: nat)
    requires NeverStops(before) && Reconnects(Run(Start(url, options), before))
    requires Steady(Run(Start(url, options), before))
    ensures var y := Run(Start(url, options), before); MadeExactly(y, Run(y, Retries(k)), k)
  {
    var y := Run(Start(url, options), before);
    if k > 0 {
      AttemptsExactly(url, options, before, k - 1);
      RunOfRetries(y, k);
      RunAppend(Start(url, options), before, Retries(k - 1));
      OneMore(url, options, before + Retries(k - 1), y, Run(y, Retries(k - 1)), k - 1);
    } else {
      LimitedOnRuns(url, options, before);
      PositionLimited(y);
    }
  }

  /** All attempts of a connection opened with these options: a failover list skips the original URL once. */
  function AllowedAttempts(max: nat, list: seq<string>): int {
    max * (|list| + 1) - (if list == [] then 0 else 1)
  }

  lemma FirstRetry(url: string, options: Pending)
    requires Start(url, options).state.context.Some?
    ensures var y, max := Run(Start(url, options), ONCE), Start(url, options).state.context.value.options.maxAttempts;
      && Reconnects(y) && Steady(y) && |y.tried| == 1 && y.state.context.value.options.maxAttempts == max
      && Remaining(y.state) == AllowedAttempts(max, ListOf(options)) - 1
  {
    TwoMore(Start(url, options), []);
    assert [] + ONCE == ONCE;
    FirstAttempt(url, options);
  }

  lemma SomeAllowed(max: nat, list: seq<string>)
    ensures max != 0 ==> AllowedAttempts(max, list) > 0
  {
    if max != 0 {
      MulMonotone(1, max, |list| + 1);
    }
  }

  lemma {:induction false} RetriesInFront(k: nat)
    ensures Retries(k + 1) == ONCE + Retries(k)
  {
    if k > 0 {
      RetriesInFront(k - 1);
      assert ONCE + Retries(k) == ONCE + Retries(k - 1) + ONCE;
    } else {
      assert ONCE + [] == [] + ONCE;
    }
  }

  /** So many attempts have been made after k failures, and then it was given up. */
  ghost predicate AllMade(n: System, k: nat, max: nat, allowed: int) {
    if max == 0 || k <= allowed then n.phase == Live && |n.tried| == k
    else n.phase == Phase.Refused && |n.tried| == allowed
  }

  /**
   A connection opened with any options and failover list, failing again and again: exactly so
   many attempts are made, and then it is given up; without a limit it never is.
   */
  lemma OpenedAttemptsExactly(url: string, options: Pending, k: nat)
    requires Start(url, options).state.context.Some?
    ensures var max := Start(url, options).state.context.value.options.maxAttempts;
      AllMade(Run(Start(url, options), Retries(k)), k, max, AllowedAttempts(max, ListOf(options)))
  {
    if k == 0 {
      SomeAllowed(Start(url, options).state.context.value.options.maxAttempts, ListOf(options));
    } else {
      FirstAndRest(url, options, k - 1);
    }
  }

  lemma FirstAndRest(url: string, options: Pending, k: nat)
    requires Start(url, options).state.context.Some?
    ensures var max := Start(url, options).state.context.value.options.maxAttempts;
      AllMade(Run(Start(url, options), Retries(k + 1)), k + 1, max, AllowedAttempts(max, ListOf(options)))
  {
    var start := Start(url, options);
    var max := start.state.context.value.options.maxAttempts;
    var y := Run(start, ONCE);
    assert Run(start, Retries(k + 1)) == Run(y, Retries(k)) by {
      RetriesInFront(k);
      RunAppend(start, ONCE, Retries(k));
    }
    FirstRetry(url, options);
    AttemptsExactly(url, options, ONCE, k);
    RestMade(y, Run(y, Retries(k)), k, max, AllowedAttempts(max, ListOf(options)));
  }

  lemma RestMade(y: System, n: System, k: nat, max: nat, allowed: int)
    requires y.state.context.Some? && y.state.context.value.options.maxAttempts == max && |y.tried| == 1
    requires Remaining(y.state) == allowed - 1 && MadeExactly(y, n, k)
    ensures AllMade(n, k + 1, max, allowed)
  {
  }

  lemma AllowedIsMaxIff(max: nat, list: seq<string>)
    requires max != 0
    ensures AllowedAttempts(max, list) >= max
    ensures AllowedAttempts(max, list) == max <==> list == [] || (max == 1 && |list| == 1)
  {
    var n := |list|;
    assert max * (n + 1) == max * n + max;
    if n > 0 {
      MulMonotone(1, n, max);
      if max > 1 || n > 1 {
        assert max * n >= n && max * n >= max;
      }
    }
  }

  /**
   The limit is documented as the number of attempts, and the code counts rounds: a connection
   that keeps failing is given up after that many attempts if and only if it has no failover
   URLs, or a single one with a limit of one.
   */
  lemma LimitAsDocumentedIff(url: string, options: Pending)
    requires Start(url, options).state.context.Some?
    requires Start(url, options).state.context.value.options.maxAttempts != 0
    ensures var max := Start(url, options).state.context.value.options.maxAttempts;
      |Run(Start(url, options), Retries(max + 1)).tried| == max <==>
        ListOf(options) == [] || (max == 1 && |ListOf(options)| == 1)
  {
    var max := Start(url, options).state.context.value.options.maxAttempts;
    OpenedAttemptsExactly(url, options, max + 1);
    AllowedIsMaxIff(max, ListOf(options));
  }

  /** With a limit of one and two failover URLs two attempts are made. */
  lemma LimitExceeded(url: string)
    ensures var options := Pending(Some(Options(10, 2.0, 1000, 1)), None, Some(["a", "b"]));
      |Run(Start(url, options), Retries(2)).tried| == 2
  {
    OpenedAttemptsExactly(url, Pending(Some(Options(10, 2.0, 1000, 1)), None, Some(["a", "b"])), 2);
  }

  // ---------- Which options are in force ----------

  predicate Transfers(y: System, a: Action) {
    a.Fire? && y.phase == Waiting && y.state.context.Some?
  }

  /** The reconnect options last set and not yet transferred by an attempt. */
  ghost function OptionsSet(y: System, acts: seq<Action>): Option<Options> {
    if acts == [] then y.state.pending.options
    else
      var a, init := acts[|acts| - 1], acts[..|acts| - 1];
      if a.Update? && a.options.options.Some? then a.options.options
      else if Transfers(Run(y, init), a) then None
      else OptionsSet(y, init)
  }

  ghost function UrlSet(y: System, acts: seq<Action>): Option<string> {
    if acts == [] then y.state.pending.url
    else
      var a, init := acts[|acts| - 1], acts[..|acts| - 1];
      if a.Update? && a.options.url.Some? then a.options.url
      else if Transfers(Run(y, init), a) then None
      else UrlSet(y, init)
  }

  /** Setting an empty failover list leaves what was set before. */
  ghost function ListSet(y: System, acts: seq<Action>): Option<seq<string>> {
    if acts == [] then y.state.pending.failovers
    else
      var a, init := acts[|acts| - 1], acts[..|acts| - 1];
      if a.Update? && a.options.failovers.Some? && a.options.failovers.value != [] then a.options.failovers
      else if Transfers(Run(y, init), a) then None
      else ListSet(y, init)
  }

  /** The reconnect options, URL and list that the last attempt transferred, or else what was there. */
  ghost function OptionsInForce(y: System, acts: seq<Action>): Options
    requires y.state.context.Some?
  {
    if acts == [] then y.state.context.value.options
    else
      var a, init := acts[|acts| - 1], acts[..|acts| - 1];
      if Transfers(Run(y, init), a) then OptionsSet(y, init).GetOr(OptionsInForce(y, init)) else OptionsInForce(y, init)
  }

  ghost function UrlInForce(y: System, acts: seq<Action>): string {
    if acts == [] then y.state.url
    else
      var a, init := acts[|acts| - 1], acts[..|acts| - 1];
      if Transfers(Run(y, init), a) then UrlSet(y, init).GetOr(UrlInForce(y, init)) else UrlInForce(y, init)
  }

  ghost function ListInForce(y: System, acts: seq<Action>): seq<string> {
    if acts == [] then y.state.failovers
    else
      var a, init := acts[|acts| - 1], acts[..|acts| - 1];
      if Transfers(Run(y, init), a) then ListSet(y, init).GetOr(ListInForce(y, init)) else ListInForce(y, init)
  }

  ghost predicate AsSet(y: System, acts: seq<Action>)
    requires y.state.context.Some?
  {
    var n := Run(y, acts).state;
    && n.pending == Pending(OptionsSet(y, acts), UrlSet(y, acts), ListSet(y, acts))
    && n.context.Some? && n.context.value.options == OptionsInForce(y, acts)
    && n.url == UrlInForce(y, acts) && n.failovers == ListInForce(y, acts)
  }

  /** What an attempt makes of the options that wait. */
  lemma TransferEffect(s: State)
    requires s.context.Some? && Indexed(s)
    ensures var n, p := Attempted(s), s.pending;
      && n.pending == NOTHING && n.context.Some?
      && n.context.value.options == p.options.GetOr(s.context.value.options)
      && n.url == p.url.GetOr(s.url) && n.failovers == p.failovers.GetOr(s.failovers)
      && (p.options.Some? ==> Position(n) == 0 && n.context.value.delay == 0 && !n.context.value.stop)
      && (p.options.None? ==>
            n.context.value.delay == s.context.value.delay && n.context.value.stop == s.context.value.stop)
      && (p.failovers.Some? ==> Tried(s) == 0)
      && (p.failovers.None? && p.url.Some? ==> Tried(s) == -1)
      && (p.failovers.None? && p.url.None? ==> Tried(s) == s.context.value.current)
  {
  }

  /** A URL or a failover list turns reconnect on, with the default options, where it was off. */
  lemma UrlsTurnReconnectOn(s: State)
    ensures var n := AppliedUrls(s);
      && (n.context.Some? <==> s.context.Some? || s.pending.url.Some? || s.pending.failovers.Some?)
      && (s.context.None? && n.context.Some? ==>
            n.context.value.options == Options(10, 2.0, 0x7FFF_FFFF_FFFF_FFFF, 0) && n.context.value.retries == 0)
      && n.pending.options == s.pending.options
  {
  }

  /**
   In every run of a connection with reconnect: the options, URL and failover list in force
   are those last set before the last attempt, and what has been set since waits for the next.
   */
  lemma {:induction false} OptionsTakeEffect(y: System, acts: seq<Action>)
    requires y.state.context.Some? && Indexed(y.state)
    ensures AsSet(y, acts) && Indexed(Run(y, acts).state)
  {
    if acts != [] {
      var a, init := acts[|acts| - 1], acts[..|acts| - 1];
      OptionsTakeEffect(y, init);
      IndexedKept(Run(y, init), a);
      if Transfers(Run(y, init), a) {
        TransferEffect(Run(y, init).state);
      }
    }
  }

  /** A connection starts with the options it was opened with, or the defaults if only a URL or a list was given. */
  lemma OpenedWith(url: string, options: Pending)
    ensures var s := Start(url, options).state;
      && (s.context.Some? <==> options.options.Some? || options.url.Some? || ListOf(options) != [])
      && (s.context.Some? ==>
            && s.context.value.options == options.options.GetOr(Options(10, 2.0, 0x7FFF_FFFF_FFFF_FFFF, 0))
            && Position(s) == 0 && s.context.value.delay == 0 && !s.context.value.stop)
      && s.url == url && s.failovers == [] && s.pending.options == None && s.pending.url == options.url
      && (ListOf(options) != [] ==> s.pending.failovers == options.failovers)
      && Indexed(s)
  {
  }
}
