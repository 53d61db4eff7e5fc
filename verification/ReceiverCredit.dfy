/**
 Credit on a receiver link: credit the application adds, credit held back while a drain is
 under way, deliveries that use it up, and credit the peer gives back. Frames arrive
 between events, events are handled one at a time in the order they were collected, and
 the application may act inside any callback; the phase says where the library stands.
 */
module ReceiverCredit {
  import opened Common

  datatype Progress = Partial | Complete | Aborted

  /** Events of this link, and stretches of events of other links of the connection. */
  datatype Event = Delivered(id: nat) | Flowed | Other

  /**
   Where the event handling stands: in `on_receiver_open`, in `on_message`, in a drain-finish
   callback made after a message, at the end of the delivery handling or by a flow event, or
   before that end.
   */
  datatype Phase = Idle | Opening | InMessage | MessageFinish | AtEnd | EndFinish | FlowFinish

  /**
   Deliveries are numbered in order of arrival, and `head` is the current one. `credit`
   counts the deliveries that have arrived and have not been advanced past.
   */
  datatype Link = Link(window: nat, credit: int, pending: nat, draining: bool, drain: bool,
                       localClosed: bool, remoteClosed: bool,
                       deliveries: seq<Progress>, head: nat, events: seq<Event>, phase: Phase)

  datatype Action =
    | AddCredit(n: nat)
    | Drain
    | Close
    | RemoteClose
    | Transfer(p: Progress)   // a transfer frame, which starts or continues a delivery
    | FlowFrame(n: nat)       // a flow frame by which the peer gives back n credit
    | Disposition(id: nat)    // a disposition frame of the peer for a delivery
    | Elsewhere               // events of other links are collected
    | Handle                  // dispatch the oldest event
    | Resume                  // the library goes on after a callback

  // ---------- The operations on the link ----------

  /** What `credit()` reports for a receiver. */
  function Reported(l: Link): int {
    l.credit + l.pending
  }

  function Waiting(l: Link): int {
    |l.deliveries| - l.head
  }

  /** The collector of the connection leaves out an event equal to its latest one. */
  function Put(events: seq<Event>, e: Event): seq<Event> {
    if events != [] && events[|events| - 1] == e then events else events + [e]
  }

  function Advance(l: Link): Link {
    if l.head < |l.deliveries| then l.(head := l.head + 1, credit := l.credit - 1) else l
  }

  function ToppedUp(l: Link): Link {
    if l.window == 0 then l else l.(credit := l.window)
  }

  predicate Drained(l: Link) {
    l.draining && l.credit == 0
  }

  function Finish(l: Link, phase: Phase): Link {
    l.(draining := false, drain := false, phase := phase)
  }

  function CreditAdded(l: Link, n: nat): Link {
    if l.draining then l.(pending := l.pending + n) else l.(credit := l.credit + n)
  }

  /** `drain()`; it throws and changes nothing while a drain is under way. */
  function DrainStarted(l: Link): Link {
    if l.draining then l
    else if Reported(l) > 0 then l.(draining := true, drain := true)
    else l.(draining := true, events := Put(l.events, Flowed))
  }

  predicate Continues(l: Link) {
    l.deliveries != [] && l.deliveries[|l.deliveries| - 1] == Partial
  }

  function Transferred(l: Link, p: Progress): Link {
    var ds := if Continues(l) then l.deliveries[|l.deliveries| - 1 := p] else l.deliveries + [p];
    l.(deliveries := ds, events := Put(l.events, Delivered(|ds| - 1)))
  }

  function SettledAborted(l: Link, id: nat): Link {
    if id == l.head then Advance(l) else l
  }

  /**
   An aborted delivery: settling it advances past it, one credit is given back, and the link is
   advanced once more.
   */
  function AbortHandled(l: Link, id: nat): Link {
    var s := SettledAborted(l, id);
    Advance(s.(credit := s.credit + 1))
  }

  predicate Known(l: Link, id: nat) {
    id < |l.deliveries|
  }

  function DeliveryHandled(l: Link, id: nat): Link
    requires Known(l, id)
  {
    if l.deliveries[id] == Aborted then AbortHandled(l, id).(phase := AtEnd)
    else if l.deliveries[id] == Complete && id == l.head then
      Advance(l).(phase := if l.localClosed then AtEnd else InMessage)
    else l.(phase := AtEnd)
  }

  function FlowHandled(l: Link): Link {
    if l.localClosed || l.remoteClosed then l
    else if Drained(l) then Finish(l, FlowFinish)
    else ToppedUp(l)
  }

  function Handled(l: Link): Link
    requires l.events != [] && (l.events[0].Delivered? ==> Known(l, l.events[0].id))
  {
    var rest := l.(events := l.events[1..]);
    match l.events[0]
    case Delivered(id) => DeliveryHandled(rest, id)
    case Flowed => FlowHandled(rest)
    case Other => rest
  }

  function Resumed(l: Link): Link {
    match l.phase
    case Idle => l
    case Opening => ToppedUp(l.(phase := Idle))
    case InMessage => if Drained(l) then Finish(l, MessageFinish) else l.(phase := AtEnd)
    case MessageFinish => l.(phase := AtEnd)
    case AtEnd => if Drained(l) then Finish(l, EndFinish) else ToppedUp(l.(phase := Idle))
    case EndFinish => ToppedUp(l.(credit := l.credit + l.pending, pending := 0, phase := Idle))
    case FlowFinish => ToppedUp(l.(phase := Idle))
  }

  /** The peer keeps to the credit it has been given. */
  predicate Enabled(l: Link, a: Action) {
    match a
    case AddCredit(_) => true
    case Drain => true
    case Close => true
    case RemoteClose => l.phase == Idle
    case Transfer(_) => l.phase == Idle && (Continues(l) || Waiting(l) < l.credit)
    case FlowFrame(n) => l.phase == Idle && Waiting(l) + n <= l.credit
    case Disposition(id) => l.phase == Idle && Known(l, id)
    case Elsewhere => true
    case Handle => l.phase == Idle && l.events != [] && (l.events[0].Delivered? ==> Known(l, l.events[0].id))
    case Resume => l.phase != Idle
  }

  function Step(l: Link, a: Action): Link
    requires Enabled(l, a)
  {
    match a
    case AddCredit(n) => CreditAdded(l, n)
    case Drain => DrainStarted(l)
    case Close => l.(localClosed := true)
    case RemoteClose => l.(remoteClosed := true)
    case Transfer(p) => Transferred(l, p)
    case FlowFrame(n) => l.(credit := l.credit - n, events := Put(l.events, Flowed))
    case Disposition(id) => l.(events := Put(l.events, Delivered(id)))
    case Elsewhere => l.(events := Put(l.events, Other))
    case Handle => Handled(l)
    case Resume => Resumed(l)
  }

  // ---------- Runs, with what has happened since the link was opened ----------

  /** Why a delivery was advanced past: read for the application, aborted, or passed over after an aborted one. */
  datatype Fate = Taken | Dropped | Skipped

  datatype History = History(added: int, refunded: int, drained: int, drains: nat, finishes: nat, fates: seq<Fate>)

  datatype World = World(link: Link, past: History)

  predicate HandlesDelivery(l: Link, a: Action) {
    a.Handle? && l.phase == Idle && l.events != [] && l.events[0].Delivered? && Known(l, l.events[0].id)
  }

  predicate HandlesAborted(l: Link, a: Action) {
    HandlesDelivery(l, a) && l.deliveries[l.events[0].id] == Aborted
  }

  predicate HandlesMessage(l: Link, a: Action) {
    HandlesDelivery(l, a) && l.deliveries[l.events[0].id] == Complete && l.events[0].id == l.head
  }

  /** Whether the second advance after an aborted delivery finds another delivery. */
  predicate PassesOver(l: Link, a: Action) {
    HandlesAborted(l, a) && SettledAborted(l, l.events[0].id).head < |l.deliveries|
  }

  function FatesOf(l: Link, a: Action): seq<Fate> {
    if HandlesMessage(l, a) then [Taken]
    else if HandlesAborted(l, a) then
      (if l.events[0].id == l.head then [Dropped] else []) + (if PassesOver(l, a) then [Skipped] else [])
    else []
  }

  /** A finish callback is made exactly when a step ends a drain. */
  function Recorded(h: History, l: Link, a: Action): History
    requires Enabled(l, a)
  {
    var next := Step(l, a);
    History(h.added + (if a.AddCredit? then a.n else 0),
            h.refunded + (if HandlesAborted(l, a) then 1 else 0),
            h.drained + (if a.FlowFrame? then a.n else 0),
            h.drains + (if !l.draining && next.draining then 1 else 0),
            h.finishes + (if next.phase != l.phase && InFinish(next.phase) then 1 else 0),
            h.fates + FatesOf(l, a))
  }

  predicate InFinish(p: Phase) {
    p == MessageFinish || p == EndFinish || p == FlowFinish
  }

  function Next(w: World, a: Action): World
    requires Enabled(w.link, a)
  {
    World(Step(w.link, a), Recorded(w.past, w.link, a))
  }

  function Opened(window: nat): World {
    World(Link(window, 0, 0, false, false, false, false, [], 0, [], Opening), History(0, 0, 0, 0, 0, []))
  }

  ghost predicate StepsAt(run: seq<World>, acts: seq<Action>, k: nat)
    requires k < |acts| && |run| == |acts| + 1
  {
    Enabled(run[k].link, acts[k]) && run[k + 1] == Next(run[k], acts[k])
  }

  ghost predicate IsRun(run: seq<World>, acts: seq<Action>, window: nat) {
    && |run| == |acts| + 1
    && run[0] == Opened(window)
    && forall i :: 0 <= i < |acts| ==> StepsAt(run, acts, i)
  }

  lemma RunStep(run: seq<World>, acts: seq<Action>, window: nat, k: nat)
    requires IsRun(run, acts, window) && k < |acts|
    ensures Enabled(run[k].link, acts[k]) && run[k + 1] == Next(run[k], acts[k])
  {
    assert StepsAt(run, acts, k);
  }

  // ---------- Credit ----------

  ghost predicate Credits(w: World) {
    && (w.link.window == 0 ==> Reported(w.link) == w.past.added + w.past.refunded - w.link.head - w.past.drained)
    && (w.link.window == 0 ==> Waiting(w.link) <= w.link.credit)
    && w.link.head == |w.past.fates| <= |w.link.deliveries|
  }

  ghost predicate Drains(w: World) {
    && w.past.finishes + (if w.link.draining then 1 else 0) == w.past.drains
    && (w.link.drain ==> w.link.draining)
  }

  ghost predicate Balanced(w: World) {
    Credits(w) && Drains(w)
  }

  lemma AbortMoves(l: Link, id: nat)
    requires l.head <= |l.deliveries|
    ensures var n := AbortHandled(l, id);
      && n.deliveries == l.deliveries && n.pending == l.pending && n.window == l.window
      && n.head <= |l.deliveries|
      && n.credit + n.head == l.credit + l.head + 1
  {
    var s := SettledAborted(l, id);
    assert s.credit + s.head == l.credit + l.head && s.head <= |l.deliveries|;
  }

  /** Handling a delivery uses one credit for each delivery it advances past, and gives one back for an aborted one. */
  lemma DeliveryMoves(l: Link, id: nat)
    requires Known(l, id) && l.head <= |l.deliveries|
    ensures var n := DeliveryHandled(l, id);
      && n.deliveries == l.deliveries && n.pending == l.pending && n.window == l.window
      && n.head <= |l.deliveries|
      && n.credit + n.head == l.credit + l.head + (if l.deliveries[id] == Aborted then 1 else 0)
  {
    if l.deliveries[id] == Aborted {
      AbortMoves(l, id);
      assert DeliveryHandled(l, id) == AbortHandled(l, id).(phase := AtEnd);
    }
  }

  lemma HeadAfter(l: Link, id: nat)
    requires Known(l, id)
    ensures DeliveryHandled(l, id).head == l.head
         + (if l.deliveries[id] != Partial && id == l.head then 1 else 0)
         + (if l.deliveries[id] == Aborted && SettledAborted(l, id).head < |l.deliveries| then 1 else 0)
  {
  }

  lemma FatesCounted(l: Link, a: Action)
    ensures |FatesOf(l, a)| ==
      (if HandlesMessage(l, a) || (HandlesAborted(l, a) && l.events[0].id == l.head) then 1 else 0)
      + (if PassesOver(l, a) then 1 else 0)
  {
  }

  lemma FatesMatchHead(l: Link, a: Action)
    requires Enabled(l, a) && l.head <= |l.deliveries|
    ensures Step(l, a).head == l.head + |FatesOf(l, a)| <= |Step(l, a).deliveries|
  {
    FatesCounted(l, a);
    if HandlesDelivery(l, a) {
      HeadAfter(l.(events := l.events[1..]), l.events[0].id);
      DeliveryMoves(l.(events := l.events[1..]), l.events[0].id);
    }
  }

  lemma CreditMoves(l: Link, a: Action)
    requires Enabled(l, a) && l.head <= |l.deliveries| && l.window == 0
    ensures var n := Step(l, a);
      Reported(n) + n.head == Reported(l) + l.head
        + (if a.AddCredit? then a.n else 0)
            - (if a.FlowFrame? then a.n else 0) + (if HandlesAborted(l, a) then 1 else 0)
  {
    if HandlesDelivery(l, a) {
      DeliveryMoves(l.(events := l.events[1..]), l.events[0].id);
    }
  }

  lemma WaitingMoves(l: Link, a: Action)
    requires Enabled(l, a) && l.head <= |l.deliveries| && l.window == 0 && Waiting(l) <= l.credit
    ensures Waiting(Step(l, a)) <= Step(l, a).credit
  {
    if HandlesDelivery(l, a) {
      DeliveryMoves(l.(events := l.events[1..]), l.events[0].id);
    }
  }

  lemma CreditsKept(w: World, a: Action)
    requires Credits(w) && Enabled(w.link, a)
    ensures Credits(Next(w, a))
  {
    FatesMatchHead(w.link, a);
    WindowKept(w.link, a);
    if w.link.window == 0 {
      CreditMoves(w.link, a);
      WaitingMoves(w.link, a);
    }
  }

  lemma DrainsKept(w: World, a: Action)
    requires Drains(w) && Enabled(w.link, a)
    ensures Drains(Next(w, a))
  {
  }

  lemma WindowKept(l: Link, a: Action)
    requires Enabled(l, a)
    ensures Step(l, a).window == l.window
  {
  }

  lemma {:induction false} BalancedOnRuns(run: seq<World>, acts: seq<Action>, window: nat, i: nat)
    requires IsRun(run, acts, window) && i < |run|
    ensures Balanced(run[i]) && run[i].link.window == window
    decreases i
  {
    if i > 0 {
      BalancedOnRuns(run, acts, window, i - 1);
      var w, a := run[i - 1], acts[i - 1];
      RunStep(run, acts, window, i - 1);
      CreditsKept(w, a);
      DrainsKept(w, a);
      WindowKept(w.link, a);
    }
  }

  /**
   In every run of a link without an automatic window, the credit on the link and the
   credit held back are all the credit ever added and refunded, less the deliveries
   advanced past and what the peer gave back; and the peer is never owed a negative amount.
   */
  lemma CreditIsConserved(run: seq<World>, acts: seq<Action>, i: nat)
    requires IsRun(run, acts, 0) && i < |run|
    ensures var w := run[i];
      && w.link.credit + w.link.pending == w.past.added + w.past.refunded - |w.past.fates| - w.past.drained
      && 0 <= Waiting(w.link) <= w.link.credit
  {
    BalancedOnRuns(run, acts, 0, i);
  }

  /** In every run, each accepted `drain()` has at most one finish callback, and none comes without one. */
  lemma OneFinishPerDrain(run: seq<World>, acts: seq<Action>, window: nat, i: nat)
    requires IsRun(run, acts, window) && i < |run|
    ensures run[i].past.finishes <= run[i].past.drains <= run[i].past.finishes + 1
    ensures run[i].link.draining <==> run[i].past.drains == run[i].past.finishes + 1
  {
    BalancedOnRuns(run, acts, window, i);
  }

  /** A finish callback is made only while draining and only when no credit is left on the link. */
  lemma FinishAtZeroCredit(w: World, a: Action)
    requires Enabled(w.link, a) && Next(w, a).past.finishes != w.past.finishes
    ensures Next(w, a).past.finishes == w.past.finishes + 1
    ensures w.link.draining && !Next(w, a).link.draining
    ensures w.link.credit == 0 == Next(w, a).link.credit
  {
  }

  /** The events that end a drain, once no credit is left: the two checks of the delivery handling, and a flow event. */
  predicate ChecksDrain(l: Link, a: Action) {
    || (a.Resume? && (l.phase == InMessage || l.phase == AtEnd))
    || (a.Handle? && l.phase == Idle && l.events != [] && l.events[0].Flowed? && !l.localClosed && !l.remoteClosed)
  }

  /** A step makes the finish callback if and only if it is such an event, with a drain under way and no credit left. */
  lemma FinishIff(w: World, a: Action)
    requires Enabled(w.link, a)
    ensures Next(w, a).past.finishes == w.past.finishes + 1 <==>
      w.link.draining && w.link.credit == 0 && ChecksDrain(w.link, a)
  {
    if HandlesDelivery(w.link, a) {
      HandlingPhase(w.link.(events := w.link.events[1..]), w.link.events[0].id);
    }
  }

  lemma HandlingPhase(l: Link, id: nat)
    requires Known(l, id)
    ensures DeliveryHandled(l, id).phase == AtEnd || DeliveryHandled(l, id).phase == InMessage
    ensures DeliveryHandled(l, id).phase == InMessage <==>
      l.deliveries[id] == Complete && id == l.head && !l.localClosed
  {
  }

  /** The application is given a message exactly when a complete, current delivery is handled on an open link. */
  lemma MessageCallbackIff(l: Link, a: Action)
    requires Enabled(l, a) && l.phase != InMessage
    ensures Step(l, a).phase == InMessage <==> HandlesMessage(l, a) && !l.localClosed
  {
    if HandlesDelivery(l, a) {
      HandlingPhase(l.(events := l.events[1..]), l.events[0].id);
    }
  }

  /** `drain()` asks the peer exactly when credit is reported; otherwise an event is queued, the last, to finish it. */
  lemma DrainEffect(l: Link)
    ensures l.draining ==> Step(l, Drain) == l
    ensures !l.draining ==>
      var n := Step(l, Drain);
      && n.draining && n.credit == l.credit && n.pending == l.pending && n.phase == l.phase
      && (n.drain <==> l.drain || l.credit + l.pending > 0)
      && (l.credit + l.pending > 0 ==> n.events == l.events)
      && (l.credit + l.pending <= 0 ==> n.events != [] && n.events[|n.events| - 1] == Flowed)
  {
  }

  /** A transfer continues the last delivery if that is unfinished, else starts one; its event is then the latest. */
  lemma TransferEffect(l: Link, p: Progress)
    requires Enabled(l, Transfer(p))
    ensures var n, old1 := Step(l, Transfer(p)), |l.deliveries|;
      && |n.deliveries| == (if old1 > 0 && l.deliveries[old1 - 1] == Partial then old1 else old1 + 1)
      && n.deliveries[|n.deliveries| - 1] == p
      && (forall id :: 0 <= id < |n.deliveries| - 1 ==> n.deliveries[id] == l.deliveries[id])
      && n.events != [] && n.events[|n.events| - 1] == Delivered(|n.deliveries| - 1)
      && n.credit == l.credit && n.head == l.head && n.phase == l.phase
  {
  }

  /** The collector's queue never holds the same event twice in a row. */
  ghost predicate NoRepeats(events: seq<Event>) {
    forall j :: 0 <= j < |events| - 1 ==> events[j] != events[j + 1]
  }

  /** An event put is the latest afterwards, and nothing else is added or lost. */
  lemma PutEffect(events: seq<Event>, e: Event)
    requires NoRepeats(events)
    ensures var n := Put(events, e);
      && n != [] && n[|n| - 1] == e && events <= n && |n| <= |events| + 1 && NoRepeats(n)
  {
  }

  lemma NoRepeatsKept(l: Link, a: Action)
    requires NoRepeats(l.events) && Enabled(l, a)
    ensures NoRepeats(Step(l, a).events)
  {
    if a.Handle? {
      HandlingKeepsEvents(l);
    } else if Puts(l, a).Some? {
      PutEffect(l.events, Puts(l, a).value);
    }
    if !a.Handle? {
      QueueMoves(l, a);
    }
  }

  /** The event that a step queues, if any. */
  function Puts(l: Link, a: Action): Option<Event> {
    match a
    case Drain => if !l.draining && Reported(l) <= 0 then Some(Flowed) else None
    case Transfer(_) => Some(Delivered(if Continues(l) then |l.deliveries| - 1 else |l.deliveries|))
    case FlowFrame(_) => Some(Flowed)
    case Disposition(id) => Some(Delivered(id))
    case Elsewhere => Some(Other)
    case _ => None
  }

  lemma QueueMoves(l: Link, a: Action)
    requires Enabled(l, a) && !a.Handle?
    ensures Step(l, a).events == if Puts(l, a).Some? then Put(l.events, Puts(l, a).value) else l.events
  {
  }

  lemma AdvanceKeepsQueue(l: Link)
    ensures var n := Advance(l);
      n.events == l.events && n.localClosed == l.localClosed && n.remoteClosed == l.remoteClosed
  {
  }

  lemma AbortKeepsQueue(l: Link, id: nat)
    ensures var n := AbortHandled(l, id);
      n.events == l.events && n.localClosed == l.localClosed && n.remoteClosed == l.remoteClosed
  {
    var s := SettledAborted(l, id);
    AdvanceKeepsQueue(l);
    AdvanceKeepsQueue(s.(credit := s.credit + 1));
  }

  lemma HandlingKeepsEvents(l: Link)
    requires Enabled(l, Handle)
    ensures var n := Handled(l);
      n.events == l.events[1..] && n.localClosed == l.localClosed && n.remoteClosed == l.remoteClosed
  {
    if l.events[0].Delivered? {
      AbortKeepsQueue(l.(events := l.events[1..]), l.events[0].id);
      AdvanceKeepsQueue(l.(events := l.events[1..]));
    }
  }

  /** In every run the queue has no repeats, and the link counts as closed by whoever has closed it. */
  lemma {:induction false} QueueOnRuns(run: seq<World>, acts: seq<Action>, window: nat, n: nat)
    requires IsRun(run, acts, window) && n <= |acts|
    ensures NoRepeats(run[n].link.events)
    ensures run[n].link.localClosed <==> Close in acts[..n]
    ensures run[n].link.remoteClosed <==> RemoteClose in acts[..n]
    decreases n
  {
    if n > 0 {
      QueueOnRuns(run, acts, window, n - 1);
      RunStep(run, acts, window, n - 1);
      NoRepeatsKept(run[n - 1].link, acts[n - 1]);
      ClosedMoves(run[n - 1].link, acts[n - 1]);
      assert acts[..n] == acts[..n - 1] + [acts[n - 1]];
    }
  }

  lemma ClosedMoves(l: Link, a: Action)
    requires Enabled(l, a)
    ensures Step(l, a).localClosed <==> l.localClosed || a.Close?
    ensures Step(l, a).remoteClosed <==> l.remoteClosed || a.RemoteClose?
  {
    if a.Handle? {
      HandlingKeepsEvents(l);
    }
  }

  // ---------- Aborted deliveries ----------

  function Count(fates: seq<Fate>, f: Fate): nat {
    if fates == [] then 0 else Count(fates[..|fates| - 1], f) + (if fates[|fates| - 1] == f then 1 else 0)
  }

  /** Credit is what was added, less the messages received and what was drained. */
  ghost predicate Lawful(w: World) {
    Reported(w.link) == w.past.added - Count(w.past.fates, Taken) - w.past.drained
  }

  /** Either the aborted delivery is current and the last to have arrived, or it was passed over and another waits. */
  predicate RefundFits(l: Link, a: Action) {
    HandlesAborted(l, a) ==> (l.events[0].id == l.head <==> !PassesOver(l, a))
  }

  lemma CountAppend(fates: seq<Fate>, f: Fate, g: Fate)
    ensures Count(fates + [g], f) == Count(fates, f) + (if g == f then 1 else 0)
  {
    assert (fates + [g])[..|fates|] == fates;
  }

  lemma CountFates(f: seq<Fate>, l: Link, a: Action)
    ensures Count(f + FatesOf(l, a), Taken) == Count(f, Taken) + (if HandlesMessage(l, a) then 1 else 0)
  {
    if HandlesMessage(l, a) {
      CountAppend(f, Taken, Taken);
    } else {
      NoneTaken(f, FatesOf(l, a));
    }
  }

  lemma {:induction false} NoneTaken(f: seq<Fate>, g: seq<Fate>)
    requires Taken !in g
    ensures Count(f + g, Taken) == Count(f, Taken)
  {
    if g == [] {
      assert f + g == f;
    } else {
      var h := g[..|g| - 1];
      NoneTaken(f, h);
      CountAppend(f + h, Taken, g[|g| - 1]);
      assert f + g == f + h + [g[|g| - 1]];
    }
  }

  /** The law survives a step exactly when the refund, if there is one, fits. */
  lemma LawfulStep(w: World, a: Action)
    requires Enabled(w.link, a) && w.link.window == 0 && Credits(w) && Lawful(w)
    ensures Lawful(Next(w, a)) <==> RefundFits(w.link, a)
  {
    CountFates(w.past.fates, w.link, a);
    CreditsKept(w, a);
    WindowKept(w.link, a);
    HeadMoves(w.link, a);
  }

  lemma HeadMoves(l: Link, a: Action)
    requires Enabled(l, a) && l.head <= |l.deliveries|
    ensures HandlesMessage(l, a) ==> Step(l, a).head == l.head + 1
    ensures HandlesAborted(l, a) ==> (RefundFits(l, a) <==> Step(l, a).head == l.head + 1)
    ensures !HandlesMessage(l, a) && !HandlesAborted(l, a) ==> Step(l, a).head == l.head
  {
    if HandlesDelivery(l, a) {
      HeadAfter(l.(events := l.events[1..]), l.events[0].id);
    }
  }

  ghost predicate LawfulUpTo(run: seq<World>, n: nat)
    requires n < |run|
  {
    Lawful(run[n]) && (n > 0 ==> LawfulUpTo(run, n - 1))
  }

  ghost predicate FitUpTo(run: seq<World>, acts: seq<Action>, n: nat)
    requires n <= |acts| && n <= |run|
  {
    n > 0 ==> RefundFits(run[n - 1].link, acts[n - 1]) && FitUpTo(run, acts, n - 1)
  }

  /**
   Credit is what was added less what was received and drained, throughout a run, exactly
   when every aborted delivery is handled as the last one to have arrived, or after it was
   itself passed over and with another one waiting.
   */
  lemma {:induction false} LawfulIff(run: seq<World>, acts: seq<Action>, n: nat)
    requires IsRun(run, acts, 0) && n <= |acts|
    ensures LawfulUpTo(run, n) <==> FitUpTo(run, acts, n)
    decreases n
  {
    if n > 0 {
      var m := n - 1;
      LawfulIff(run, acts, m);
      if LawfulUpTo(run, m) {
        BalancedOnRuns(run, acts, 0, m);
        RunStep(run, acts, 0, m);
        LawfulStep(run[m], acts[m]);
      }
    }
  }

  // ---------- Credit held back ----------

  /**
   While a drain is under way the link gains credit in two ways only: a refund for an
   aborted delivery that is no longer current, and the release after an earlier finish
   whose callback started this drain.
   */
  lemma HeldBack(l: Link, a: Action)
    requires Enabled(l, a) && l.window == 0 && l.draining && Step(l, a).credit > l.credit
    ensures (HandlesAborted(l, a) && l.events[0].id != l.head) || (a.Resume? && l.phase == EndFinish && l.pending > 0)
  {
  }

  lemma DrainStep(l: Link, a: Action)
    requires Enabled(l, a) && l.window == 0 && l.head <= |l.deliveries|
    requires l.draining && Step(l, a).draining && l.phase != EndFinish && RefundFits(l, a)
    ensures Step(l, a).credit <= l.credit && Step(l, a).phase != EndFinish
    ensures Step(l, a).pending == l.pending + (if a.AddCredit? then a.n else 0)
  {
    if HandlesDelivery(l, a) {
      DeliveryMoves(l.(events := l.events[1..]), l.events[0].id);
      HeadMoves(l, a);
    }
  }

  lemma DrainRunStep(run: seq<World>, acts: seq<Action>, k: nat)
    requires IsRun(run, acts, 0) && k < |acts| && run[k].link.phase != EndFinish
    requires run[k].link.draining && run[k + 1].link.draining && RefundFits(run[k].link, acts[k])
    ensures run[k + 1].link.credit <= run[k].link.credit && run[k + 1].link.phase != EndFinish
    ensures run[k + 1].link.pending - run[k].link.pending == run[k + 1].past.added - run[k].past.added
  {
    BalancedOnRuns(run, acts, 0, k);
    RunStep(run, acts, 0, k);
    DrainStep(run[k].link, acts[k]);
  }

  /** The link gains no credit, and credit added is on hold. */
  ghost predicate HoldsBack(w: World, w': World) {
    w.link.phase != EndFinish ==>
      && w'.link.credit <= w.link.credit && w'.link.phase != EndFinish
      && w'.link.pending - w.link.pending == w'.past.added - w.past.added
  }

  ghost predicate HoldsAt(run: seq<World>, k: nat) {
    k + 1 < |run| && HoldsBack(run[k], run[k + 1])
  }

  lemma {:induction false} HoldsChain(run: seq<World>, i: nat, n: nat)
    requires i <= n < |run| && forall k :: i <= k < n ==> HoldsAt(run, k)
    ensures HoldsBack(run[i], run[n])
    decreases n - i
  {
    if i < n {
      HoldsChain(run, i, n - 1);
      assert HoldsAt(run, n - 1);
    }
  }

  /**
   In every run, as long as one drain lasts the link gains no credit, and all credit added
   meanwhile is on hold: unless the drain was started inside the releasing callback of an
   earlier one, or an aborted delivery is refunded that does not fit.
   */
  lemma DrainHoldsBack(run: seq<World>, acts: seq<Action>, i: nat, n: nat)
    requires IsRun(run, acts, 0) && i <= n <= |acts| && run[i].link.phase != EndFinish
    requires forall k :: i <= k <= n ==> run[k].link.draining
    requires forall k {:trigger acts[k]} :: i <= k < n ==> RefundFits(run[k].link, acts[k])
    ensures run[n].link.credit <= run[i].link.credit
    ensures run[n].link.pending - run[i].link.pending == run[n].past.added - run[i].past.added
  {
    forall k | i <= k < n ensures HoldsAt(run, k) {
      if run[k].link.phase != EndFinish {
        DrainRunStep(run, acts, k);
      }
    }
    HoldsChain(run, i, n);
  }

  /**
   Credit on hold is released when the finish callback at the end of the delivery handling returns,
   and by no other step.
   */
  lemma ReleasedIff(l: Link, a: Action)
    requires Enabled(l, a) && l.pending > 0
    ensures Step(l, a).pending < l.pending <==> Releases(l, a)
    ensures Step(l, a).pending < l.pending
        ==> Step(l, a).pending == 0 && Reported(Step(l, a)) == (if l.window == 0 then Reported(l) else l.window)
  {
    if a.Handle? {
      HandlingHolds(l);
    }
  }

  predicate Releases(l: Link, a: Action) {
    a.Resume? && l.phase == EndFinish
  }

  lemma HoldRunStep(run: seq<World>, acts: seq<Action>, window: nat, k: nat)
    requires IsRun(run, acts, window) && k < |acts| && !Releases(run[k].link, acts[k])
    ensures run[k + 1].link.pending >= run[k].link.pending
  {
    RunStep(run, acts, window, k);
    if run[k].link.pending > 0 {
      ReleasedIff(run[k].link, acts[k]);
    }
  }

  lemma {:induction false} NeverLess(amounts: seq<nat>, i: nat, n: nat)
    requires i <= n < |amounts|
    requires forall k :: i <= k < n ==> amounts[k] <= amounts[k + 1]
    ensures amounts[i] <= amounts[n]
    decreases n - i
  {
    if i < n {
      NeverLess(amounts, i, n - 1);
      assert amounts[n - 1] <= amounts[n - 1 + 1];
    }
  }

  /** The credit added during drains since credit on hold was last released. */
  ghost function AddedOnHold(run: seq<World>, acts: seq<Action>, n: nat): int
    requires n <= |acts| && n <= |run|
  {
    if n == 0 || Releases(run[n - 1].link, acts[n - 1]) then 0
    else AddedOnHold(run, acts, n - 1)
         + (if run[n - 1].link.draining && acts[n - 1].AddCredit? then acts[n - 1].n else 0)
  }

  lemma HoldMoves(l: Link, a: Action)
    requires Enabled(l, a)
    ensures Step(l, a).pending ==
      if Releases(l, a) then 0 else l.pending + (if l.draining && a.AddCredit? then a.n else 0)
  {
    if a.Handle? {
      HandlingHolds(l);
    }
  }

  /** In every run exactly that credit is on hold. */
  lemma {:induction false} HeldExactly(run: seq<World>, acts: seq<Action>, window: nat, n: nat)
    requires IsRun(run, acts, window) && n <= |acts|
    ensures run[n].link.pending == AddedOnHold(run, acts, n)
    decreases n
  {
    if n > 0 {
      HeldExactly(run, acts, window, n - 1);
      RunStep(run, acts, window, n - 1);
      HoldMoves(run[n - 1].link, acts[n - 1]);
    }
  }

  /** In every run, credit on hold stays there until the releasing callback returns, whatever drains begin and end. */
  lemma OnHoldUntilReleased(run: seq<World>, acts: seq<Action>, window: nat, i: nat, n: nat)
    requires IsRun(run, acts, window) && i <= n <= |acts|
    requires forall k {:trigger acts[k]} :: i <= k < n ==> !Releases(run[k].link, acts[k])
    ensures run[n].link.pending >= run[i].link.pending
  {
    var held := seq(|run|, k requires 0 <= k < |run| => run[k].link.pending);
    forall k | i <= k < n ensures held[k] <= held[k + 1] {
      HoldRunStep(run, acts, window, k);
    }
    NeverLess(held, i, n);
  }

  lemma HandlingHolds(l: Link)
    requires Enabled(l, Handle)
    ensures Handled(l).pending == l.pending
  {
  }

  /**
   The finish callback of a drain is the releasing one exactly when the drain ends in the delivery
   handling and not right after a message.
   */
  lemma ReleasingFinishIff(w: World, a: Action)
    requires Enabled(w.link, a) && Next(w, a).past.finishes != w.past.finishes
    ensures Next(w, a).link.phase == EndFinish <==> a.Resume? && w.link.phase == AtEnd
    ensures Next(w, a).link.phase == MessageFinish <==> a.Resume? && w.link.phase == InMessage
    ensures Next(w, a).link.phase == FlowFinish <==> a.Handle?
  {
  }

  /** No event of this link is waiting. */
  ghost predicate NoneOwn(events: seq<Event>) {
    forall e :: e in events ==> e.Other?
  }

  /** Nothing can happen on this link any more unless the peer sends a flow or disposition frame of its own accord. */
  ghost predicate Stalled(l: Link) {
    && l.window == 0 && l.draining && l.credit == 0 && l.phase == Idle && NoneOwn(l.events)
    && l.head == |l.deliveries| && !Continues(l)
  }

  /** On a stalled link added credit stays on hold, `drain()` is refused, and no message can arrive. */
  lemma StalledStays(l: Link, a: Action)
    requires Stalled(l) && Enabled(l, a)
    ensures a.FlowFrame? || a.Disposition? || (Stalled(Step(l, a)) && Step(l, a).pending >= l.pending)
    ensures !a.Transfer? && !HandlesDelivery(l, a) && (a.FlowFrame? ==> a.n == 0)
    ensures a.Drain? ==> Step(l, a) == l
  {
    if a.Handle? {
      assert l.events[0] in l.events && forall e :: e in l.events[1..] ==> e in l.events;
    }
  }

  /** The link after the event of a disposition for an earlier delivery, and the rest of its handling. */
  ghost function AfterDisposition(l: Link, id: nat): Link
    requires Stalled(l) && l.events == [] && Known(l, id)
  {
    var handled := Resumed(Handled(Step(l, Disposition(id))));
    if handled.phase == EndFinish then Resumed(handled) else handled
  }

  /**
   A disposition of the peer's own accord ends the stall: unless its delivery was aborted, the
   drain finishes and the credit on hold is released; if it was, one credit is given back a
   second time and the drain goes on.
   */
  lemma DispositionEndsStall(l: Link, id: nat)
    requires Stalled(l) && l.events == [] && Known(l, id)
    ensures var n := AfterDisposition(l, id);
      if l.deliveries[id] == Aborted
      then n == l.(credit := 1)
      else n == l.(credit := l.pending, pending := 0, draining := false, drain := false)
  {
    assert Step(l, Disposition(id)).events == [Delivered(id)];
    assert Step(l, Disposition(id)).events[1..] == l.events;
  }

  /** On a quiet link, `drain()` stalls exactly when all the credit it reports is on hold. */
  lemma DrainStallsIff(l: Link)
    requires l.window == 0 && !l.draining && l.phase == Idle && NoneOwn(l.events)
    requires l.head == |l.deliveries| && !Continues(l) && 0 <= l.credit
    ensures Stalled(Step(l, Drain)) <==> l.credit == 0 && l.pending > 0
  {
    if Reported(l) <= 0 {
      assert Flowed in Step(l, Drain).events;
    }
  }

  lemma Extended(run: seq<World>, acts: seq<Action>, window: nat, a: Action)
    returns (run': seq<World>, acts': seq<Action>)
    requires IsRun(run, acts, window) && Enabled(run[|run| - 1].link, a)
    ensures IsRun(run', acts', window) && acts' == acts + [a]
    ensures run'[|run'| - 1].link == Step(run[|run| - 1].link, a)
    ensures run'[|run'| - 1].past.fates == run[|run| - 1].past.fates + FatesOf(run[|run| - 1].link, a)
  {
    run', acts' := run + [Next(run[|run| - 1], a)], acts + [a];
    forall i | 0 <= i < |acts'| ensures StepsAt(run', acts', i) {
      if i < |acts| {
        assert StepsAt(run, acts, i);
      }
    }
  }

  /**
   A drain that ends with the last message leaves the credit added during it on hold, and a second
   drain then stalls.
   */
  lemma DrainCanStall() returns (run: seq<World>, acts: seq<Action>)
    ensures IsRun(run, acts, 0)
    ensures !run[|run| - 1].link.draining && run[|run| - 1].link.credit == 0 && run[|run| - 1].link.pending == 5
    ensures Enabled(run[|run| - 1].link, Drain) && Stalled(Step(run[|run| - 1].link, Drain))
  {
    run, acts := [Opened(0)], [];
    run, acts := Extended(run, acts, 0, Resume);
    run, acts := Extended(run, acts, 0, AddCredit(1));
    assert run[|run| - 1].link == Link(0, 1, 0, false, false, false, false, [], 0, [], Idle);
    run, acts := Extended(run, acts, 0, Drain);
    assert run[|run| - 1].link == Link(0, 1, 0, true, true, false, false, [], 0, [], Idle);
    run, acts := Extended(run, acts, 0, AddCredit(5));
    assert run[|run| - 1].link == Link(0, 1, 5, true, true, false, false, [], 0, [], Idle);
    run, acts := MessageEndsDrain(run, acts);
  }

  lemma MessageEndsDrain(run: seq<World>, acts: seq<Action>) returns (run': seq<World>, acts': seq<Action>)
    requires IsRun(run, acts, 0)
    requires run[|run| - 1].link == Link(0, 1, 5, true, true, false, false, [], 0, [], Idle)
    ensures IsRun(run', acts', 0)
    ensures run'[|run'| - 1].link == Link(0, 0, 5, false, false, false, false, [Complete], 1, [], Idle)
  {
    run', acts' := Extended(run, acts, 0, Transfer(Complete));
    assert run'[|run'| - 1].link == Link(0, 1, 5, true, true, false, false, [Complete], 0, [Delivered(0)], Idle);
    run', acts' := Extended(run', acts', 0, Handle);
    assert run'[|run'| - 1].link == Link(0, 0, 5, true, true, false, false, [Complete], 1, [], InMessage);
    run', acts' := Extended(run', acts', 0, Resume);
    assert run'[|run'| - 1].link == Link(0, 0, 5, false, false, false, false, [Complete], 1, [], MessageFinish);
    run', acts' := Extended(run', acts', 0, Resume);
    assert run'[|run'| - 1].link == Link(0, 0, 5, false, false, false, false, [Complete], 1, [], AtEnd);
    run', acts' := Extended(run', acts', 0, Resume);
  }
}
