/**
 The automatic credit window, which every receiver has unless it is turned off: after every
 event the library brings the credit of the link back to the window.
 */
module ReceiverWindow {
  import opened ReceiverCredit
  import opened ReceiverDeliveries

  /**
   The library has finished with an event: the open event, a delivery, or a flow event on an
   open link, which if it ends a drain is finished only after the callback.
   */
  predicate EventDone(l: Link, a: Action)
    requires Enabled(l, a)
  {
    || (a.Resume? && (l.phase == Opening || l.phase == EndFinish || l.phase == FlowFinish))
    || (a.Resume? && l.phase == AtEnd && !(l.draining && l.credit == 0))
    || (a.Handle? && l.events[0].Flowed? && !l.localClosed && !l.remoteClosed && !(l.draining && l.credit == 0))
  }

  /** With a window, the credit of the link is the window whenever the library has finished with an event. */
  lemma WindowIsRefilled(l: Link, a: Action)
    requires Enabled(l, a) && l.window > 0
    ensures EventDone(l, a) ==> Step(l, a).credit == l.window && Step(l, a).phase == Idle
    ensures a.Resume? && Step(l, a).phase == Idle ==> Step(l, a).credit == l.window
  {
  }

  /** What the application adds to the link, less what the peer gives back. */
  function Given(l: Link, a: Action): int {
    (if a.AddCredit? && !l.draining then a.n else 0) - (if a.FlowFrame? then a.n else 0)
  }

  /** The deliveries advanced past, less the credit given back for aborted ones. */
  function Used(l: Link, a: Action): int {
    |FatesOf(l, a)| - (if HandlesAborted(l, a) then 1 else 0)
  }

  lemma CreditBetween(l: Link, a: Action)
    requires Enabled(l, a) && l.window > 0 && l.head <= |l.deliveries| && !EventDone(l, a)
    ensures Step(l, a).credit == l.credit + Given(l, a) - Used(l, a)
  {
    FatesCounted(l, a);
    if HandlesDelivery(l, a) {
      HeadAfter(l.(events := l.events[1..]), l.events[0].id);
      DeliveryMoves(l.(events := l.events[1..]), l.events[0].id);
    }
  }

  /** What was given, and what was used, since the library last finished with an event. */
  ghost function GivenSince(run: seq<World>, acts: seq<Action>, window: nat, n: nat): int
    requires IsRun(run, acts, window) && n <= |acts|
  {
    if n == 0 then 0
    else
      RunStep(run, acts, window, n - 1);
      if EventDone(run[n - 1].link, acts[n - 1]) then 0
      else GivenSince(run, acts, window, n - 1) + Given(run[n - 1].link, acts[n - 1])
  }

  ghost function UsedSince(run: seq<World>, acts: seq<Action>, window: nat, n: nat): int
    requires IsRun(run, acts, window) && n <= |acts|
  {
    if n == 0 then 0
    else
      RunStep(run, acts, window, n - 1);
      if EventDone(run[n - 1].link, acts[n - 1]) then 0
      else UsedSince(run, acts, window, n - 1) + Used(run[n - 1].link, acts[n - 1])
  }

  /** Between events nothing is used, and before the open event nothing has been. */
  lemma UsedMoves(l: Link, a: Action)
    requires Enabled(l, a)
    ensures Used(l, a) != 0 ==> a.Handle? && Step(l, a).phase != Idle && Step(l, a).phase != Opening
    ensures Step(l, a).phase == Opening ==> l.phase == Opening
    ensures Step(l, a).phase == Idle ==> l.phase == Idle || EventDone(l, a)
  {
    if HandlesDelivery(l, a) {
      HandlingPhase(l.(events := l.events[1..]), l.events[0].id);
    }
  }

  /** The credit of a link with a window, with what was given and used since the last event. */
  predicate InWindow(l: Link, given: int, used: int) {
    && l.credit == (if l.phase == Opening then 0 else l.window) + given - used
    && (l.phase == Idle || l.phase == Opening ==> used == 0)
  }

  lemma InWindowKept(l: Link, a: Action, given: int, used: int)
    requires Enabled(l, a) && l.window > 0 && l.head <= |l.deliveries| && InWindow(l, given, used)
    ensures if EventDone(l, a) then InWindow(Step(l, a), 0, 0)
            else InWindow(Step(l, a), given + Given(l, a), used + Used(l, a))
  {
    UsedMoves(l, a);
    WindowKept(l, a);
    if EventDone(l, a) {
      WindowIsRefilled(l, a);
    } else {
      CreditBetween(l, a);
    }
  }

  lemma {:induction false} CreditInWindow(run: seq<World>, acts: seq<Action>, window: nat, n: nat)
    requires IsRun(run, acts, window) && window > 0 && n <= |acts|
    ensures run[n].link.window == window
    ensures InWindow(run[n].link, GivenSince(run, acts, window, n), UsedSince(run, acts, window, n))
    decreases n
  {
    if n > 0 {
      var given, used := GivenSince(run, acts, window, n - 1), UsedSince(run, acts, window, n - 1);
      CreditInWindow(run, acts, window, n - 1);
      RunStep(run, acts, window, n - 1);
      BalancedOnRuns(run, acts, window, n - 1);
      WindowKept(run[n - 1].link, acts[n - 1]);
      InWindowKept(run[n - 1].link, acts[n - 1], given, used);
    }
  }

  /**
   In every run of a link with a window, between events the credit is the window, and what
   the application has added to it, less what the peer has given back, since the last event:
   however many deliveries there were, none is missing from it.
   */
  lemma CreditIsTheWindow(run: seq<World>, acts: seq<Action>, window: nat, n: nat)
    requires IsRun(run, acts, window) && window > 0 && n <= |acts| && run[n].link.phase == Idle
    ensures run[n].link.credit == window + GivenSince(run, acts, window, n)
  {
    CreditInWindow(run, acts, window, n);
  }

  /** So when all events are handled and the peer has given nothing back since, it can send. */
  lemma WindowAdmits(run: seq<World>, acts: seq<Action>, window: nat, n: nat, p: Progress)
    requires IsRun(run, acts, window) && window > 0 && n <= |acts| && Quiet(run[n].link)
    requires GivenSince(run, acts, window, n) >= 0
    ensures Enabled(run[n].link, Transfer(p))
  {
    CreditIsTheWindow(run, acts, window, n);
    OrderedOnRuns(run, acts, window, n);
  }
}
