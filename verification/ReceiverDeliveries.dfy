/**
 What becomes of the deliveries of a receiver link: when all events have been handled,
 every complete delivery has been given to the application, in order and once, unless it
 was passed over behind an aborted one.
 */
module ReceiverDeliveries {
  import opened ReceiverCredit

  ghost predicate EventsKnown(l: Link) {
    forall j :: 0 <= j < |l.events| && l.events[j].Delivered? ==> l.events[j].id < |l.deliveries|
  }

  /** Before an event of a delivery there is one for every earlier delivery that has not been advanced past. */
  ghost predicate InTurn(events: seq<Event>, head: nat) {
    forall p :: 0 <= p < |events| && events[p].Delivered? ==> Preceded(events[..p], head, events[p].id)
  }

  ghost predicate Preceded(before: seq<Event>, head: nat, id: nat) {
    forall i: nat :: head <= i < id ==> Delivered(i) in before
  }

  ghost predicate OnlyLastPartial(l: Link) {
    forall id :: 0 <= id < |l.deliveries| - 1 ==> l.deliveries[id] != Partial
  }

  /** A finished delivery that has not been advanced past has an event waiting. */
  ghost predicate Announced(l: Link) {
    forall id: nat :: l.head <= id < |l.deliveries| && l.deliveries[id] != Partial ==> Delivered(id) in l.events
  }

  ghost predicate Ordered(l: Link) {
    l.head <= |l.deliveries| && EventsKnown(l) && InTurn(l.events, l.head) && OnlyLastPartial(l) && Announced(l)
  }

  ghost predicate FatesFit(w: World) {
    && |w.past.fates| == w.link.head <= |w.link.deliveries|
    && (forall id :: 0 <= id < w.link.head && w.past.fates[id] == Taken ==> w.link.deliveries[id] == Complete)
    && (forall id :: 0 <= id < w.link.head && w.past.fates[id] == Dropped ==> w.link.deliveries[id] == Aborted)
  }

  // ---------- Each step keeps the order ----------

  lemma PutInTurn(events: seq<Event>, head: nat, e: Event)
    requires InTurn(events, head) && (e.Delivered? ==> Preceded(events, head, e.id))
    ensures InTurn(Put(events, e), head)
    ensures e in Put(events, e) && forall x :: x in events ==> x in Put(events, e)
  {
    var n := Put(events, e);
    forall p | 0 <= p < |n| && n[p].Delivered? ensures Preceded(n[..p], head, n[p].id) {
      if p < |events| {
        assert n[..p] == events[..p];
      } else {
        assert n[..p] == events;
      }
    }
  }

  /** The handled event belongs to the current delivery or to one already passed. */
  lemma HandledIsNotAhead(l: Link)
    requires Ordered(l) && l.events != [] && l.events[0].Delivered?
    ensures l.events[0].id <= l.head
  {
    assert Preceded(l.events[..0], l.head, l.events[0].id);
    assert Delivered(l.head) !in l.events[..0];
  }

  /** Deliveries before a known one are announced, so an event for it is in turn. */
  lemma EarlierAnnounced(l: Link, id: nat)
    requires Ordered(l) && id <= |l.deliveries| && (id == |l.deliveries| ==> !Continues(l))
    ensures Preceded(l.events, l.head, id)
  {
    forall i: nat | l.head <= i < id ensures Delivered(i) in l.events {
      assert l.deliveries[i] != Partial;
    }
  }

  lemma TransferredAnnounced(l: Link, n: Link)
    requires Announced(l) && n.head == l.head && n.deliveries != []
    requires forall e :: e in l.events ==> e in n.events
    requires Delivered(|n.deliveries| - 1) in n.events
    requires |l.deliveries| >= |n.deliveries| - 1
    requires forall id :: 0 <= id < |n.deliveries| - 1 ==> n.deliveries[id] == l.deliveries[id]
    ensures Announced(n)
  {
  }

  /** What a transfer leaves of the deliveries before the one it is for. */
  lemma TransferredDeliveries(l: Link, p: Progress)
    requires OnlyLastPartial(l)
    ensures var n := Transferred(l, p);
      && OnlyLastPartial(n) && n.deliveries != [] && n.head == l.head
      && |l.deliveries| <= |n.deliveries| <= |l.deliveries| + 1
      && (|n.deliveries| == |l.deliveries| + 1 <==> !Continues(l))
      && forall id :: 0 <= id < |n.deliveries| - 1 ==> n.deliveries[id] == l.deliveries[id]
  {
  }

  lemma TransferredOrdered(l: Link, p: Progress)
    requires Ordered(l)
    ensures Ordered(Transferred(l, p))
  {
    var n := Transferred(l, p);
    var last := |n.deliveries| - 1;
    TransferredDeliveries(l, p);
    EarlierAnnounced(l, last);
    assert n.events == Put(l.events, Delivered(last));
    PutInTurn(l.events, l.head, Delivered(last));
    TransferredAnnounced(l, n);
  }

  lemma HandledOrdered(l: Link)
    requires Ordered(l) && Enabled(l, Handle) && l.events[0].Delivered?
    ensures Ordered(Handled(l))
  {
    var n, id := Handled(l), l.events[0].id;
    HandledIsNotAhead(l);
    DeliveryMoves(l.(events := l.events[1..]), id);
    HeadAfter(l.(events := l.events[1..]), id);
    assert n.events == l.events[1..] && n.deliveries == l.deliveries && l.head <= n.head;
    assert id == l.head && l.deliveries[id] != Partial ==> id < n.head;
    PoppedOrdered(l, n);
  }

  /** The front event goes, and its delivery is behind the current one or unfinished. */
  lemma PoppedInTurn(events: seq<Event>, head: nat, head': nat)
    requires InTurn(events, head) && events != [] && head <= head'
    requires forall p :: 0 < p < |events| && events[p].Delivered? && events[0].Delivered? ==>
      events[0].id < head' || events[p].id <= events[0].id
    ensures InTurn(events[1..], head')
  {
    var n := events[1..];
    forall p | 0 <= p < |n| && n[p].Delivered? ensures Preceded(n[..p], head', n[p].id) {
      assert n[p] == events[p + 1] && Preceded(events[..p + 1], head, n[p].id);
      assert events[..p + 1] == [events[0]] + n[..p];
    }
  }

  lemma PoppedOrdered(l: Link, n: Link)
    requires Ordered(l) && l.events != [] && n.events == l.events[1..] && n.deliveries == l.deliveries
    requires l.head <= n.head <= |n.deliveries|
    requires l.events[0].Delivered? ==>
      var id := l.events[0].id; id < n.head || (id < |l.deliveries| && l.deliveries[id] == Partial)
    ensures Ordered(n)
  {
    PoppedInTurn(l.events, l.head, n.head);
    forall k: nat | n.head <= k < |n.deliveries| && n.deliveries[k] != Partial
      ensures Delivered(k) in n.events
    {
      assert Delivered(k) in l.events && l.events[0] != Delivered(k);
    }
  }

  lemma OtherwiseOrdered(l: Link)
    requires Ordered(l) && Enabled(l, Handle) && !l.events[0].Delivered?
    ensures Ordered(Handled(l))
  {
    PoppedOrdered(l, Handled(l));
  }

  lemma PutOrdered(l: Link, n: Link, e: Event)
    requires Ordered(l) && n.head == l.head && n.deliveries == l.deliveries && n.events == Put(l.events, e)
    requires e.Delivered? ==> e.id < |l.deliveries|
    ensures Ordered(n)
  {
    if e.Delivered? {
      EarlierAnnounced(l, e.id);
    }
    PutInTurn(l.events, l.head, e);
  }

  lemma SameEventsOrdered(l: Link, n: Link)
    requires Ordered(l) && n.head == l.head && n.deliveries == l.deliveries && n.events == l.events
    ensures Ordered(n)
  {
  }

  lemma OrderedKept(l: Link, a: Action)
    requires Ordered(l) && Enabled(l, a)
    ensures Ordered(Step(l, a))
  {
    match a
    case Transfer(p) => TransferredOrdered(l, p);
    case Disposition(id) => PutOrdered(l, Step(l, a), Delivered(id));
    case FlowFrame(_) => PutOrdered(l, Step(l, a), Flowed);
    case Elsewhere => PutOrdered(l, Step(l, a), Other);
    case Drain =>
      if !l.draining && Reported(l) <= 0 {
        PutOrdered(l, Step(l, a), Flowed);
      } else {
        SameEventsOrdered(l, Step(l, a));
      }
    case Handle =>
      if l.events[0].Delivered? {
        HandledOrdered(l);
      } else {
        OtherwiseOrdered(l);
      }
    case _ => SameEventsOrdered(l, Step(l, a));
  }

  /** What every link keeps, without its history. */
  ghost predicate LinkInv(l: Link) {
    && Ordered(l)
    && (l.window == 0 ==> Waiting(l) <= l.credit)
    && (l.drain ==> l.draining)
  }

  lemma DrainFlagKept(l: Link, a: Action)
    requires Enabled(l, a) && (l.drain ==> l.draining)
    ensures Step(l, a).drain ==> Step(l, a).draining
  {
    if HandlesDelivery(l, a) {
      HandlingKeepsDeliveries(l.(events := l.events[1..]), l.events[0].id);
    }
  }

  lemma LinkInvKept(l: Link, a: Action)
    requires LinkInv(l) && Enabled(l, a)
    ensures LinkInv(Step(l, a))
  {
    OrderedKept(l, a);
    DrainFlagKept(l, a);
    WindowKept(l, a);
    if l.window == 0 {
      WaitingMoves(l, a);
    }
  }

  // ---------- Fates ----------

  /** The deliveries that have arrived, and whether a drain is under way, are the same. */
  predicate SameArrived(l: Link, n: Link) {
    n.deliveries == l.deliveries && n.drain == l.drain && n.draining == l.draining
  }

  lemma AdvanceKeepsArrived(l: Link)
    ensures SameArrived(l, Advance(l))
  {
  }

  lemma AbortKeepsArrived(l: Link, id: nat)
    ensures SameArrived(l, AbortHandled(l, id))
  {
    var s := SettledAborted(l, id);
    AdvanceKeepsArrived(l);
    AdvanceKeepsArrived(s.(credit := s.credit + 1));
  }

  lemma HandlingKeepsDeliveries(l: Link, id: nat)
    requires Known(l, id)
    ensures SameArrived(l, DeliveryHandled(l, id))
  {
    if l.deliveries[id] == Aborted {
      AbortKeepsArrived(l, id);
    } else if l.deliveries[id] == Complete && id == l.head {
      AdvanceKeepsArrived(l);
    }
  }

  lemma DeliveriesGrow(l: Link, a: Action, id: nat)
    requires Enabled(l, a) && id < |l.deliveries| && l.deliveries[id] != Partial
    ensures id < |Step(l, a).deliveries| && Step(l, a).deliveries[id] == l.deliveries[id]
  {
    if HandlesDelivery(l, a) {
      HandlingKeepsDeliveries(l.(events := l.events[1..]), l.events[0].id);
    } else if !a.Transfer? {
      assert Step(l, a).deliveries == l.deliveries;
    }
  }

  lemma NewFatesFit(l: Link, a: Action, k: nat)
    requires Enabled(l, a) && l.head <= |l.deliveries| && k < |FatesOf(l, a)|
    ensures l.head + k < |l.deliveries|
    ensures FatesOf(l, a)[k] == Taken ==> l.deliveries[l.head + k] == Complete
    ensures FatesOf(l, a)[k] == Dropped ==> l.deliveries[l.head + k] == Aborted
  {
  }

  lemma FatesFitKept(w: World, a: Action)
    requires FatesFit(w) && Enabled(w.link, a)
    ensures FatesFit(Next(w, a))
  {
    var l, n := w.link, Next(w, a);
    FatesMatchHead(l, a);
    forall id: nat | id < n.link.head
      ensures n.past.fates[id] == Taken ==> n.link.deliveries[id] == Complete
      ensures n.past.fates[id] == Dropped ==> n.link.deliveries[id] == Aborted
    {
      if id >= l.head {
        NewFatesFit(l, a, id - l.head);
      }
      if id < |l.deliveries| && l.deliveries[id] != Partial {
        DeliveriesGrow(l, a, id);
      }
    }
  }

  lemma {:induction false} OrderedOnRuns(run: seq<World>, acts: seq<Action>, window: nat, i: nat)
    requires IsRun(run, acts, window) && i < |run|
    ensures Ordered(run[i].link) && FatesFit(run[i])
    decreases i
  {
    if i > 0 {
      OrderedOnRuns(run, acts, window, i - 1);
      RunStep(run, acts, window, i - 1);
      OrderedKept(run[i - 1].link, acts[i - 1]);
      FatesFitKept(run[i - 1], acts[i - 1]);
    }
  }

  predicate Quiet(l: Link) {
    l.phase == Idle && l.events == []
  }

  // ---------- Every event can be handled ----------

  /** How far the library is from having handled the event it is at. */
  function Rank(p: Phase): nat {
    match p
    case Idle => 0
    case Opening => 1
    case EndFinish => 1
    case FlowFinish => 1
    case AtEnd => 2
    case MessageFinish => 3
    case InMessage => 4
  }

  /** The next step of the library alone: go on after a callback, or dispatch an event. */
  function Onward(l: Link): Action {
    if l.phase == Idle then Handle else Resume
  }

  lemma OnwardMoves(l: Link)
    requires Ordered(l) && !Quiet(l)
    ensures Enabled(l, Onward(l))
    ensures var n := Step(l, Onward(l));
      |n.events| < |l.events| || (n.events == l.events && Rank(n.phase) < Rank(l.phase))
  {
  }

  /**
   From every reachable state the library alone, with callbacks that do nothing, comes to
   the end of its events in finitely many steps, so no event is ever stuck.
   */
  lemma {:induction false} EventsRunOut(run: seq<World>, acts: seq<Action>, window: nat)
    returns (run': seq<World>, acts': seq<Action>)
    requires IsRun(run, acts, window)
    ensures IsRun(run', acts', window) && Quiet(run'[|run'| - 1].link)
    ensures acts <= acts' && forall k :: |acts| <= k < |acts'| ==> acts'[k].Handle? || acts'[k].Resume?
    decreases |run[|run| - 1].link.events|, Rank(run[|run| - 1].link.phase)
  {
    var l := run[|run| - 1].link;
    if Quiet(l) {
      return run, acts;
    }
    OrderedOnRuns(run, acts, window, |run| - 1);
    OnwardMoves(l);
    run', acts' := Extended(run, acts, window, Onward(l));
    ghost var first := acts';
    run', acts' := EventsRunOut(run', acts', window);
    assert acts'[|acts|] == first[|acts|];
  }

  /**
   In every run, when no event is left every finished delivery has met its fate: a message
   was read or passed over, an aborted one dropped or passed over.
   */
  lemma NothingLeftBehind(run: seq<World>, acts: seq<Action>, window: nat, i: nat, id: nat)
    requires IsRun(run, acts, window) && i < |run| && Quiet(run[i].link)
    requires id < |run[i].link.deliveries| && run[i].link.deliveries[id] != Partial
    ensures id < |run[i].past.fates|
    ensures run[i].link.deliveries[id] == Complete
        ==> run[i].past.fates[id] == Taken || run[i].past.fates[id] == Skipped
    ensures run[i].link.deliveries[id] == Aborted
        ==> run[i].past.fates[id] == Dropped || run[i].past.fates[id] == Skipped
  {
    OrderedOnRuns(run, acts, window, i);
  }

  /** The delivery that the second advance passes over. */
  function PassedId(l: Link, a: Action): nat
    requires PassesOver(l, a)
  {
    SettledAborted(l, l.events[0].id).head
  }

  /**
   In the first n steps, no aborted delivery is handled with a message behind it; `ds` tells which
   deliveries end as messages.
   */
  ghost predicate NonePassedUpTo(run: seq<World>, acts: seq<Action>, n: nat, ds: seq<Progress>)
    requires n <= |acts| && n <= |run|
  {
    n > 0 ==>
      && NonePassedUpTo(run, acts, n - 1, ds)
      && (PassesOver(run[n - 1].link, acts[n - 1]) ==>
            var id := PassedId(run[n - 1].link, acts[n - 1]); id < |ds| ==> ds[id] != Complete)
  }

  ghost predicate NoneSkipped(fates: seq<Fate>, ds: seq<Progress>) {
    forall id :: 0 <= id < |fates| && id < |ds| && fates[id] == Skipped ==> ds[id] != Complete
  }

  lemma SkippedIsPassed(l: Link, a: Action, k: nat)
    requires k < |FatesOf(l, a)|
    ensures FatesOf(l, a)[k] == Skipped <==> PassesOver(l, a) && k == |FatesOf(l, a)| - 1
    ensures FatesOf(l, a)[k] == Skipped ==> PassedId(l, a) == l.head + k
  {
  }

  lemma PassingSkips(l: Link, a: Action)
    requires PassesOver(l, a)
    ensures |FatesOf(l, a)| > 0 && PassedId(l, a) == l.head + |FatesOf(l, a)| - 1
  {
  }

  lemma SkippedStep(w: World, a: Action, ds: seq<Progress>)
    requires FatesFit(w) && Enabled(w.link, a)
    ensures NoneSkipped(Next(w, a).past.fates, ds) <==>
      NoneSkipped(w.past.fates, ds)
      && (PassesOver(w.link, a) ==> var id := PassedId(w.link, a); id < |ds| ==> ds[id] != Complete)
  {
    var l, f, g := w.link, w.past.fates, FatesOf(w.link, a);
    var n := Next(w, a).past.fates;
    assert n == f + g;
    if NoneSkipped(n, ds) {
      forall id | 0 <= id < |f| && id < |ds| && f[id] == Skipped ensures ds[id] != Complete {
        assert n[id] == Skipped;
      }
      if PassesOver(l, a) {
        PassingSkips(l, a);
        SkippedIsPassed(l, a, |g| - 1);
        assert n[|f| + |g| - 1] == Skipped;
      }
    } else {
      var id :| 0 <= id < |n| && id < |ds| && n[id] == Skipped && ds[id] == Complete;
      if id >= |f| {
        SkippedIsPassed(l, a, id - |f|);
      }
    }
  }

  lemma {:induction false} NoneSkippedIff(run: seq<World>, acts: seq<Action>, window: nat, n: nat, ds: seq<Progress>)
    requires IsRun(run, acts, window) && n <= |acts|
    ensures NoneSkipped(run[n].past.fates, ds) <==> NonePassedUpTo(run, acts, n, ds)
    decreases n
  {
    if n > 0 {
      NoneSkippedIff(run, acts, window, n - 1, ds);
      RunStep(run, acts, window, n - 1);
      OrderedOnRuns(run, acts, window, n - 1);
      SkippedStep(run[n - 1], acts[n - 1], ds);
    }
  }

  ghost predicate AllTaken(w: World) {
    forall id: nat :: id < |w.link.deliveries| ==>
      (w.link.deliveries[id] == Complete <==> id < |w.past.fates| && w.past.fates[id] == Taken)
  }

  lemma AllTakenUnlessSkipped(w: World)
    requires FatesFit(w)
    requires forall id: nat :: id < |w.link.deliveries| && w.link.deliveries[id] == Complete ==> id < w.link.head
    ensures AllTaken(w) <==> NoneSkipped(w.past.fates, w.link.deliveries)
  {
    if AllTaken(w) {
      forall id: nat | id < |w.past.fates| && w.past.fates[id] == Skipped ensures w.link.deliveries[id] != Complete {
      }
    }
  }

  /**
   When all events of a run have been handled, the deliveries read for the application are
   exactly the complete ones, if and only if no aborted delivery was handled with one of
   them waiting right behind it.
   */
  lemma ReceivedExactlyIff(run: seq<World>, acts: seq<Action>, window: nat)
    requires IsRun(run, acts, window) && Quiet(run[|acts|].link)
    ensures AllTaken(run[|acts|]) <==> NonePassedUpTo(run, acts, |acts|, run[|acts|].link.deliveries)
  {
    var w := run[|acts|];
    OrderedOnRuns(run, acts, window, |acts|);
    AllTakenUnlessSkipped(w);
    NoneSkippedIff(run, acts, window, |acts|, w.link.deliveries);
  }

  /**
   An aborted delivery and a message that arrive together: the message is never given to the
   application, and its credit is gone.
   */
  lemma MessageIsPassedOver() returns (run: seq<World>, acts: seq<Action>)
    ensures IsRun(run, acts, 0) && Quiet(run[|run| - 1].link)
    ensures run[|run| - 1].link.deliveries == [Aborted, Complete]
    ensures run[|run| - 1].past.fates == [Dropped, Skipped] && run[|run| - 1].link.credit == 1
  {
    run, acts := [Opened(0)], [];
    run, acts := Extended(run, acts, 0, Resume);
    assert run[|run| - 1].link == Link(0, 0, 0, false, false, false, false, [], 0, [], Idle);
    run, acts := Extended(run, acts, 0, AddCredit(2));
    assert run[|run| - 1].link == Link(0, 2, 0, false, false, false, false, [], 0, [], Idle);
    run, acts := BothArrive(run, acts);
    run, acts := BothHandled(run, acts);
  }

  lemma BothArrive(run: seq<World>, acts: seq<Action>) returns (run': seq<World>, acts': seq<Action>)
    requires IsRun(run, acts, 0) && run[|run| - 1].past.fates == []
    requires run[|run| - 1].link == Link(0, 2, 0, false, false, false, false, [], 0, [], Idle)
    ensures IsRun(run', acts', 0) && run'[|run'| - 1].past.fates == []
    ensures run'[|run'| - 1].link
        == Link(0, 2, 0, false, false, false, false, [Aborted, Complete], 0, [Delivered(0), Delivered(1)], Idle)
  {
    run', acts' := Extended(run, acts, 0, Transfer(Aborted));
    assert run'[|run'| - 1].link == Link(0, 2, 0, false, false, false, false, [Aborted], 0, [Delivered(0)], Idle);
    run', acts' := Extended(run', acts', 0, Transfer(Complete));
  }

  lemma BothHandled(run: seq<World>, acts: seq<Action>) returns (run': seq<World>, acts': seq<Action>)
    requires IsRun(run, acts, 0) && run[|run| - 1].past.fates == []
    requires run[|run| - 1].link
        == Link(0, 2, 0, false, false, false, false, [Aborted, Complete], 0, [Delivered(0), Delivered(1)], Idle)
    ensures IsRun(run', acts', 0) && run'[|run'| - 1].past.fates == [Dropped, Skipped]
    ensures run'[|run'| - 1].link == Link(0, 1, 0, false, false, false, false, [Aborted, Complete], 2, [], Idle)
  {
    run', acts' := Extended(run, acts, 0, Handle);
    assert run'[|run'| - 1].link
        == Link(0, 1, 0, false, false, false, false, [Aborted, Complete], 2, [Delivered(1)], AtEnd);
    run', acts' := Extended(run', acts', 0, Resume);
    assert run'[|run'| - 1].link
        == Link(0, 1, 0, false, false, false, false, [Aborted, Complete], 2, [Delivered(1)], Idle);
    run', acts' := Extended(run', acts', 0, Handle);
    assert run'[|run'| - 1].link == Link(0, 1, 0, false, false, false, false, [Aborted, Complete], 2, [], AtEnd);
    run', acts' := Extended(run', acts', 0, Resume);
  }
}
