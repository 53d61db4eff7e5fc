/**
 Every run of the transaction steps: the conversation with each coordinator, the
 transaction id, and the control messages.
 */
module TransactionRuns {
  import opened Common
  import opened Transactions

  /** What passes over a coordinator link. */
  datatype Msg = SentDeclare | SentDischarge(id: Id, failed: bool) | Got(answer: Answer)

  /** A transactional disposition the peer gave to an outgoing delivery, recorded with its id. */
  datatype Mark = Mark(tracker: Ref, id: Id)

  /**
   The connection with its history: `talk` is the conversation over each link that has
   been a coordinator link, `marks` the dispositions each session has recorded since its
   previous commit.
   */
  datatype World = World(conn: Conn, talk: map<nat, seq<Msg>>, marks: map<nat, set<Mark>>)

  const START := World(EMPTY, map[], map[])

  function Said(talk: map<nat, seq<Msg>>, l: nat, m: Msg): map<nat, seq<Msg>> {
    talk[l := (if l in talk then talk[l] else []) + [m]]
  }

  predicate DeclareAccepted(c: Conn, s: nat) {
    IsEmpty(c, s) && !HasUnsettledOutgoing(c, s)
  }

  function TalkAfter(w: World, a: Action): map<nat, seq<Msg>>
    requires Enabled(w.conn, a)
  {
    var c := w.conn;
    match a
    case Declare(s, _) =>
      if DeclareAccepted(c, s)
      then Said(w.talk, if s in c.txns then c.txns[s].coordinator else |c.links|, SentDeclare) else w.talk
    case Discharge(s, failed) =>
      if IsDeclared(c, s) then Said(w.talk, c.txns[s].coordinator, SentDischarge(c.txns[s].id, failed)) else w.talk
    case Answered(s, ctl, answer) => Said(w.talk, ctl.link, Got(answer))
    case _ => w.talk
  }

  function MarksOf(w: World, s: nat): set<Mark> {
    if s in w.marks then w.marks[s] else {}
  }

  function MarksAfter(w: World, a: Action): map<nat, set<Mark>>
    requires Enabled(w.conn, a)
  {
    var c := w.conn;
    match a
    case Declare(s, _) => if DeclareAccepted(c, s) && s !in c.txns then w.marks[s := {}] else w.marks
    case TrackerUpdate(r, remote, _) =>
      var s := c.links[r.link].session;
      if remote.Transactional? && s in c.txns && c.txns[s].id == remote.id
      then w.marks[s := MarksOf(w, s) + {Mark(r, remote.id)}] else w.marks
    case Return => if c.phase.Reporting? then w.marks[c.phase.session := {}] else w.marks
    case _ => w.marks
  }

  function Step(w: World, a: Action): World
    requires Enabled(w.conn, a)
  {
    World(Next(w.conn, a), TalkAfter(w, a), MarksAfter(w, a))
  }

  ghost predicate StepsAt(run: seq<World>, acts: seq<Action>, k: nat)
    requires k < |acts| && |run| == |acts| + 1
  {
    Enabled(run[k].conn, acts[k]) && run[k + 1] == Step(run[k], acts[k])
  }

  ghost predicate IsRun(run: seq<World>, acts: seq<Action>) {
    && |run| == |acts| + 1
    && run[0] == START
    && forall i :: 0 <= i < |acts| ==> StepsAt(run, acts, i)
  }

  lemma RunStep(run: seq<World>, acts: seq<Action>, k: nat)
    requires IsRun(run, acts) && k < |acts|
    ensures Enabled(run[k].conn, acts[k]) && run[k + 1] == Step(run[k], acts[k])
  {
    assert StepsAt(run, acts, k);
  }

  // ---------- The conversation the AMQP transaction protocol allows ----------

  /** Where a conversation stands. `Closed` and `Abandoned` are final. */
  datatype Stage =
    | AtRest
    | AwaitDeclared
    | Active(id: Id)
    | AwaitDischarged(id: Id, failed: bool)
    | Closed
    | Abandoned
    | Violation

  function Advance(g: Stage, m: Msg): Stage {
    match g
    case AtRest => if m == SentDeclare then AwaitDeclared else Violation
    case AwaitDeclared =>
      (match m
       case Got(DeclaredWith(id)) => Active(id)
       case Got(CtlRejected) => AtRest
       case Got(CtlAccepted) => Closed
       case Got(CtlOther) => Abandoned
       case _ => Violation)
    case Active(id) =>
      if m.SentDischarge? && m.id == id then AwaitDischarged(id, m.failed) else Violation
    case AwaitDischarged(_, failed) =>
      (match m
       case Got(CtlAccepted) => AtRest
       case Got(CtlRejected) => if failed then Closed else AtRest
       case Got(DeclaredWith(_)) => Closed
       case Got(CtlOther) => Abandoned
       case _ => Violation)
    case _ => Violation
  }

  function StageOf(talk: seq<Msg>): Stage {
    if talk == [] then AtRest else Advance(StageOf(talk[..|talk| - 1]), talk[|talk| - 1])
  }

  lemma StageAfter(talk: map<nat, seq<Msg>>, l: nat, m: Msg)
    ensures l in talk ==> StageOf(Said(talk, l, m)[l]) == Advance(StageOf(talk[l]), m)
    ensures l !in talk ==> StageOf(Said(talk, l, m)[l]) == Advance(AtRest, m)
  {
    var before := if l in talk then talk[l] else [];
    assert (before + [m])[..|before|] == before;
    assert StageOf([]) == AtRest;
  }

  lemma {:induction false} ViolationIsFinal(talk: seq<Msg>, k: nat)
    requires k <= |talk| && StageOf(talk[..k]) == Violation
    ensures StageOf(talk) == Violation
    decreases |talk|
  {
    if k < |talk| {
      assert talk[..|talk| - 1][..k] == talk[..k];
      ViolationIsFinal(talk[..|talk| - 1], k);
    } else {
      assert talk[..k] == talk;
    }
  }

  /** In a conversation without violation, a discharge directly follows the declare outcome whose id it carries. */
  lemma DischargeFollowsItsDeclare(talk: seq<Msg>, k: nat)
    requires StageOf(talk) != Violation && k < |talk| && talk[k].SentDischarge?
    ensures 0 < k && talk[k - 1] == Got(DeclaredWith(talk[k].id))
  {
    if StageOf(talk[..k + 1]) == Violation {
      ViolationIsFinal(talk, k + 1);
    }
    assert talk[..k + 1][..k] == talk[..k];
    assert StageOf(talk[..k]) == Active(talk[k].id);
    assert talk[..k][..k - 1] == talk[..k - 1];
  }

  predicate Awaiting(g: Stage) {
    g.AwaitDeclared? || g.AwaitDischarged?
  }

  // ---------- What every step keeps ----------

  /** The control message whose outcome is being handled, if it belongs to session `s`. */
  function Handling(p: Phase, s: nat): Option<Ref> {
    if (p.InDeclared? || p.InAborted? || p.Reporting? || p.InCommitted? || p.InError?) && p.session == s
    then Some(p.ctl) else None
  }

  /** A callback of session `s` after which the library clears the transaction id. */
  predicate ClearPending(p: Phase, s: nat) {
    (p.InAborted? || p.Reporting? || p.InCommitted? || p.InError?) && p.session == s
  }

  /** The context agrees with the conversation. */
  predicate Agrees(t: Txn, g: Stage) {
    match g
    case AtRest => t.state == NoTransaction
    case AwaitDeclared => t.state == Declaring
    case Active(id) => t.state == Declared && t.id == id
    case AwaitDischarged(id, failed) => t.state == Discharging && t.id == id && t.failed == failed
    case Abandoned => t.state == Declaring || t.state == Discharging
    case _ => false
  }

  /**
   The control messages on a coordinator link: none is enlisted in a transaction, and the
   only ones not settled are the one awaiting its outcome, which is the last one sent, and
   the one whose outcome is being handled.
   */
  ghost predicate Controls(ds: seq<Delivery>, g: Stage, handled: Option<nat>) {
    && (forall j :: 0 <= j < |ds| ==> ds[j].local == NoState)
    && (forall j :: 0 <= j < |ds| && !ds[j].settled ==>
          handled == Some(j) || (Awaiting(g) && j == |ds| - 1))
    && (handled.Some? ==> handled.value < |ds|)
    && (Awaiting(g) ==> |ds| > 0 && handled != Some(|ds| - 1))
  }

  function HandledIndex(p: Phase, s: nat): Option<nat> {
    var h := Handling(p, s);
    if h.Some? then Some(h.value.index) else None
  }

  /** The state of one session's transaction. */
  ghost predicate SessionInv(w: World, s: nat)
    requires s in w.conn.txns
  {
    var c, t := w.conn, w.conn.txns[s];
    && t.coordinator < |c.links|
    && c.links[t.coordinator].session == s && c.links[t.coordinator].sender
    && !c.links[t.coordinator].presettled
    && t.coordinator in w.talk
    && Agrees(t, StageOf(w.talk[t.coordinator]))
    && Controls(c.links[t.coordinator].deliveries, StageOf(w.talk[t.coordinator]), HandledIndex(c.phase, s))
    && (Handling(c.phase, s).Some? ==> Handling(c.phase, s).value.link == t.coordinator)
    && ((t.state == NoTransaction || t.state == Declaring) && !ClearPending(c.phase, s) ==> t.id == [])
    && (t.error ==> ClearPending(c.phase, s))
    && (ClearPending(c.phase, s) ==> t.state == NoTransaction || t.state == Declaring)
  }

  /** A delivery that can have a provisional outcome from the peer: outgoing, and not a control message. */
  predicate Tracked(c: Conn, r: Ref) {
    Exists(c.links, r) && c.links[r.link].sender && !IsCoordinator(c, r.link)
  }

  ghost predicate TrackersInv(c: Conn) {
    && (forall s, r :: s in c.txns && r in c.txns[s].provisional ==> Tracked(c, r))
    && (c.phase.Reporting? ==> forall r :: r in c.phase.todo ==> Tracked(c, r))
    && (AboutTracker(c.phase) ==> Tracked(c, c.phase.tracker))
  }

  /** Links that once carried a conversation and no longer do were closed. */
  ghost predicate TalkInv(w: World) {
    forall l :: l in w.talk ==>
      l < |w.conn.links| && (!IsCoordinator(w.conn, l) ==> StageOf(w.talk[l]) == Closed)
  }

  ghost predicate PhaseInv(c: Conn) {
    c.phase.Idle? || AboutTracker(c.phase) || c.phase.session in c.txns
  }

  ghost predicate Inv(w: World) {
    && (forall s :: s in w.conn.txns ==> SessionInv(w, s))
    && TrackersInv(w.conn)
    && TalkInv(w)
    && PhaseInv(w.conn)
  }

  // ---------- Steps that leave every conversation alone ----------

  /** The two contexts agree on everything but the provisional outcomes. */
  predicate SameTxn(t: Txn, t': Txn) {
    t'.(provisional := t.provisional) == t
  }

  /** The same sessions have contexts, with the same coordinator links carrying the same messages. */
  ghost predicate SameTalk(c: Conn, c': Conn) {
    && c'.txns.Keys == c.txns.Keys
    && |c.links| <= |c'.links|
    && (forall s :: s in c.txns ==> SameTxn(c.txns[s], c'.txns[s]))
    && (forall s :: s in c.txns && c.txns[s].coordinator < |c.links| ==>
          c'.links[c.txns[s].coordinator] == c.links[c.txns[s].coordinator])
  }

  ghost predicate SamePhase(p: Phase, p': Phase) {
    forall s :: Handling(p, s) == Handling(p', s) && (ClearPending(p, s) <==> ClearPending(p', s))
  }

  /** Deliveries are never removed, and links keep their direction. */
  ghost predicate Grows(links: seq<Link>, links': seq<Link>) {
    && |links| <= |links'|
    && forall l :: 0 <= l < |links| ==>
         |links[l].deliveries| <= |links'[l].deliveries| && links'[l].sender == links[l].sender
  }

  lemma SameCoordinators(c: Conn, c': Conn, l: nat)
    requires c'.txns.Keys == c.txns.Keys
    requires forall s :: s in c.txns ==> c'.txns[s].coordinator == c.txns[s].coordinator
    ensures IsCoordinator(c', l) <==> IsCoordinator(c, l)
  {
    if s :| s in c.txns && c.txns[s].coordinator == l {
      assert s in c'.txns && c'.txns[s].coordinator == l;
    }
    if s :| s in c'.txns && c'.txns[s].coordinator == l {
      assert s in c.txns && c.txns[s].coordinator == l;
    }
  }

  lemma QuietStep(w: World, w': World)
    requires Inv(w)
    requires SameTalk(w.conn, w'.conn) && SamePhase(w.conn.phase, w'.conn.phase)
    requires w'.talk == w.talk && PhaseInv(w'.conn)
    ensures forall s :: s in w'.conn.txns ==> SessionInv(w', s)
    ensures TalkInv(w')
  {
    forall s | s in w'.conn.txns ensures SessionInv(w', s) {
      assert SessionInv(w, s) && SameTxn(w.conn.txns[s], w'.conn.txns[s]);
    }
    forall l | l in w'.talk && !IsCoordinator(w'.conn, l) ensures StageOf(w'.talk[l]) == Closed {
      SameCoordinators(w.conn, w'.conn, l);
    }
  }

  lemma TrackedKept(c: Conn, c': Conn, r: Ref)
    requires Tracked(c, r) && Grows(c.links, c'.links)
    requires c'.txns.Keys == c.txns.Keys
    requires forall s :: s in c.txns ==> c'.txns[s].coordinator == c.txns[s].coordinator
    ensures Tracked(c', r)
  {
    SameCoordinators(c, c', r.link);
  }

  /** Changing one delivery off the coordinator links. */
  lemma PutIsQuiet(c: Conn, r: Ref, d: Delivery)
    requires Exists(c.links, r) && !IsCoordinator(c, r.link)
    ensures SameTalk(c, c.(links := Put(c.links, r, d)))
    ensures Grows(c.links, Put(c.links, r, d))
  {
  }

  /** Adding deliveries off the coordinator links. */
  lemma AppendIsQuiet(c: Conn, l: nat, d: Delivery)
    requires l < |c.links| && !IsCoordinator(c, l)
    ensures var links' := c.links[l := c.links[l].(deliveries := c.links[l].deliveries + [d])];
      SameTalk(c, c.(links := links')) && Grows(c.links, links')
  {
  }

  /** Receiver links are not coordinator links. */
  lemma ReceiverIsNotCoordinator(w: World, l: nat)
    requires Inv(w) && l < |w.conn.links| && !w.conn.links[l].sender
    ensures !IsCoordinator(w.conn, l)
  {
    forall s | s in w.conn.txns ensures w.conn.txns[s].coordinator != l {
      assert SessionInv(w, s);
    }
  }

  predicate Quiet(a: Action) {
    a.OpenLink? || a.Send? || a.Dispose? || a.Settle? || a.Arrive? || a.TrackerUpdate? || a.Report?
  }

  /** Actions that add to a link, or add a link. */
  lemma QuietAdditions(w: World, a: Action)
    requires Inv(w) && Enabled(w.conn, a) && (a.OpenLink? || a.Send? || a.Arrive?)
    ensures SameTalk(w.conn, Next(w.conn, a)) && Grows(w.conn.links, Next(w.conn, a).links)
  {
    var c, c' := w.conn, Next(w.conn, a);
    match a
    case OpenLink(_, _, _, _) =>
    case Send(l) => AppendIsQuiet(c, l, c'.links[l].deliveries[|c.links[l].deliveries|]);
    case Arrive(l) =>
      ReceiverIsNotCoordinator(w, l);
      AppendIsQuiet(c, l, Delivery(NoState, false, NoState, false));
  }

  /** Actions that change a delivery. */
  lemma QuietChanges(c: Conn, a: Action, r: Ref)
    requires Enabled(c, a) && Exists(c.links, r) && !IsCoordinator(c, r.link)
    requires match a
             case Dispose(q, _) => q == r
             case Settle(q) => q == r
             case TrackerUpdate(q, _, _) => q == r
             case Report(q) => q == r
             case _ => false
    ensures SameTalk(c, Next(c, a)) && Grows(c.links, Next(c, a).links)
  {
    match a
    case Dispose(_, kind) => PutIsQuiet(c, r, Disposed(c, r, kind));
    case TrackerUpdate(_, remote, remoteSettled) =>
      PutIsQuiet(c, r, At(c.links, r).(remote := remote, remoteSettled := remoteSettled));
    case Settle(_) => PutIsQuiet(c, r, At(c.links, r).(settled := true));
    case Report(_) => PutIsQuiet(c, r, At(c.links, r).(settled := true));
    case _ =>
  }

  /** These actions touch no coordinator link and no context beyond its provisional outcomes. */
  lemma QuietActions(w: World, a: Action)
    requires Inv(w) && Enabled(w.conn, a) && Quiet(a)
    ensures SameTalk(w.conn, Next(w.conn, a)) && Grows(w.conn.links, Next(w.conn, a).links)
  {
    var c := w.conn;
    match a
    case Dispose(r, _) =>
      ReceiverIsNotCoordinator(w, r.link);
      QuietChanges(c, a, r);
    case Settle(r) => QuietChanges(c, a, r);
    case TrackerUpdate(r, _, _) => QuietChanges(c, a, r);
    case Report(r) =>
      assert Tracked(c, r);
      QuietChanges(c, a, r);
    case _ => QuietAdditions(w, a);
  }

  lemma QuietPhases(c: Conn, a: Action)
    requires PhaseInv(c) && Enabled(c, a) && Quiet(a)
    ensures SamePhase(c.phase, Next(c, a).phase) && PhaseInv(Next(c, a))
  {
  }

  /** The trackers a quiet action can add to the recorded ones: the delivery it is about. */
  lemma QuietTrackers(c: Conn, a: Action, c': Conn)
    requires TrackersInv(c) && Enabled(c, a) && Quiet(a) && c' == Next(c, a)
    requires SameTalk(c, c') && Grows(c.links, c'.links)
    ensures TrackersInv(c')
  {
    forall s, r | s in c'.txns && r in c'.txns[s].provisional ensures Tracked(c', r) {
      assert r in c.txns[s].provisional || (a.TrackerUpdate? && r == a.ref);
      TrackedKept(c, c', r);
    }
    if c'.phase.Reporting? {
      forall r | r in c'.phase.todo ensures Tracked(c', r) {
        TrackedKept(c, c', r);
      }
    }
    if AboutTracker(c'.phase) {
      TrackedKept(c, c', c'.phase.tracker);
    }
  }

  lemma InvAfterQuiet(w: World, a: Action)
    requires Inv(w) && Enabled(w.conn, a) && Quiet(a)
    ensures Inv(Step(w, a))
  {
    QuietActions(w, a);
    QuietPhases(w.conn, a);
    QuietTrackers(w.conn, a, Next(w.conn, a));
    QuietStep(w, Step(w, a));
  }

  // ---------- Declaring and discharging ----------

  /** Different sessions have different coordinator links. */
  lemma CoordinatorsDiffer(w: World, s: nat, u: nat)
    requires s in w.conn.txns && u in w.conn.txns && s != u
    requires SessionInv(w, s) && SessionInv(w, u)
    ensures w.conn.txns[s].coordinator != w.conn.txns[u].coordinator
  {
  }

  /** Give session `s` the context `t` and send a control message on its coordinator link. */
  function Control(c: Conn, s: nat, t: Txn): Conn
    requires t.coordinator < |c.links|
  {
    SendOn(c.(txns := c.txns[s := t]), t.coordinator)
  }

  /** The next stage after session `s` sends a control message with the context `t`. */
  ghost predicate MaySend(w: World, s: nat, t: Txn, m: Msg)
    requires s in w.conn.txns && w.conn.txns[s].coordinator in w.talk
  {
    var was, g := w.conn.txns[s], StageOf(w.talk[w.conn.txns[s].coordinator]);
    && t.coordinator == was.coordinator && t.provisional == was.provisional
    && t.id == was.id && t.error == was.error && t.state != Declared
    && !Awaiting(g) && Awaiting(Advance(g, m)) && Agrees(t, Advance(g, m))
  }

  lemma SessionAfterControl(w: World, s: nat, t: Txn, m: Msg, w': World)
    requires s in w.conn.txns && SessionInv(w, s) && MaySend(w, s, t, m)
    requires t.state == Declaring ==> w.conn.txns[s].state == NoTransaction
    requires w'.conn == Control(w.conn, s, t) && w'.talk == Said(w.talk, t.coordinator, m)
    ensures SessionInv(w', s)
  {
    var l := t.coordinator;
    StageAfter(w.talk, l, m);
    var ds, ds' := w.conn.links[l].deliveries, w'.conn.links[l].deliveries;
    assert ds' == ds + [Delivery(NoState, false, NoState, false)];
  }

  lemma OthersAfterControl(w: World, s: nat, t: Txn, m: Msg, w': World, u: nat)
    requires s in w.conn.txns && SessionInv(w, s) && MaySend(w, s, t, m)
    requires w'.conn == Control(w.conn, s, t) && w'.talk == Said(w.talk, t.coordinator, m)
    requires u in w.conn.txns && u != s && SessionInv(w, u)
    ensures SessionInv(w', u)
  {
    CoordinatorsDiffer(w, s, u);
  }

  lemma TrackersAfterControl(c: Conn, s: nat, t: Txn)
    requires TrackersInv(c) && s in c.txns && t.coordinator < |c.links|
    requires t.coordinator == c.txns[s].coordinator && t.provisional == c.txns[s].provisional
    ensures TrackersInv(Control(c, s, t))
  {
    var c' := Control(c, s, t);
    forall u, r | u in c'.txns && r in c'.txns[u].provisional ensures Tracked(c', r) {
      assert r in c.txns[u].provisional;
      TrackedKept(c, c', r);
    }
    if c'.phase.Reporting? {
      forall r | r in c'.phase.todo ensures Tracked(c', r) {
        TrackedKept(c, c', r);
      }
    }
    if AboutTracker(c'.phase) {
      TrackedKept(c, c', c'.phase.tracker);
    }
  }

  lemma TalkAfterControl(w: World, s: nat, t: Txn, m: Msg, w': World)
    requires TalkInv(w) && s in w.conn.txns && t.coordinator < |w.conn.links|
    requires t.coordinator == w.conn.txns[s].coordinator
    requires w'.conn == Control(w.conn, s, t) && w'.talk == Said(w.talk, t.coordinator, m)
    ensures TalkInv(w')
  {
    forall l | l in w'.talk && !IsCoordinator(w'.conn, l) ensures StageOf(w'.talk[l]) == Closed {
      SameCoordinators(w.conn, w'.conn, l);
      assert w'.conn.txns[s].coordinator != l;
    }
  }

  lemma InvAfterControl(w: World, s: nat, t: Txn, m: Msg, w': World)
    requires Inv(w) && s in w.conn.txns && SessionInv(w, s) && MaySend(w, s, t, m)
    requires t.state == Declaring ==> w.conn.txns[s].state == NoTransaction
    requires w'.conn == Control(w.conn, s, t) && w'.talk == Said(w.talk, t.coordinator, m)
    ensures Inv(w')
  {
    SessionAfterControl(w, s, t, m, w');
    forall u | u in w'.conn.txns && u != s ensures SessionInv(w', u) {
      OthersAfterControl(w, s, t, m, w', u);
    }
    TrackersAfterControl(w.conn, s, t);
    TalkAfterControl(w, s, t, m, w');
  }

  /** The first declare of a session opens its coordinator link and creates its context. */
  function Attach(w: World, s: nat): World {
    var l := |w.conn.links|;
    World(w.conn.(links := w.conn.links + [Link(s, true, false, true, [])],
                  txns := w.conn.txns[s := Txn(l, NoTransaction, [], false, true, false, {})]),
          w.talk[l := []], w.marks[s := {}])
  }

  lemma AttachTracked(c: Conn, c': Conn, s: nat, r: Ref)
    requires Tracked(c, r) && s !in c.txns && s in c'.txns
    requires |c'.links| == |c.links| + 1 && c'.links[..|c.links|] == c.links
    requires c'.txns == c.txns[s := c'.txns[s]] && c'.txns[s].coordinator == |c.links|
    ensures Tracked(c', r)
  {
    assert c'.links[r.link] == c.links[r.link];
    forall u | u in c'.txns ensures c'.txns[u].coordinator != r.link {
      assert u != s ==> u in c.txns && c'.txns[u] == c.txns[u];
    }
  }

  lemma TrackersAfterAttach(w: World, s: nat)
    requires Inv(w) && s !in w.conn.txns
    ensures TrackersInv(Attach(w, s).conn)
  {
    var c, c' := w.conn, Attach(w, s).conn;
    assert c'.links[..|c.links|] == c.links;
    forall u, r | u in c'.txns && r in c'.txns[u].provisional ensures Tracked(c', r) {
      AttachTracked(c, c', s, r);
    }
    if c'.phase.Reporting? {
      forall r | r in c'.phase.todo ensures Tracked(c', r) {
        AttachTracked(c, c', s, r);
      }
    }
    if AboutTracker(c'.phase) {
      AttachTracked(c, c', s, c'.phase.tracker);
    }
  }

  lemma SessionAfterAttach(w: World, s: nat, u: nat)
    requires s !in w.conn.txns && u in w.conn.txns && SessionInv(w, u)
    ensures SessionInv(Attach(w, s), u)
  {
    var l := w.conn.txns[u].coordinator;
    assert Attach(w, s).conn.links[l] == w.conn.links[l];
  }

  lemma TalkAfterAttach(w: World, s: nat)
    requires TalkInv(w) && s !in w.conn.txns
    ensures TalkInv(Attach(w, s))
  {
    var w' := Attach(w, s);
    forall l | l in w'.talk && !IsCoordinator(w'.conn, l) ensures StageOf(w'.talk[l]) == Closed {
      assert w'.conn.txns[s].coordinator == |w.conn.links|;
      assert !IsCoordinator(w.conn, l) by {
        forall u | u in w.conn.txns ensures w.conn.txns[u].coordinator != l {
          assert u != s ==> u in w'.conn.txns && w'.conn.txns[u] == w.conn.txns[u];
        }
      }
    }
  }

  lemma InvAfterAttach(w: World, s: nat)
    requires Inv(w) && s !in w.conn.txns
    ensures Inv(Attach(w, s))
  {
    var w' := Attach(w, s);
    assert StageOf(w'.talk[|w.conn.links|]) == AtRest;
    assert SessionInv(w', s);
    forall u | u in w'.conn.txns && u != s ensures SessionInv(w', u) {
      SessionAfterAttach(w, s, u);
    }
    TrackersAfterAttach(w, s);
    TalkAfterAttach(w, s);
  }

  function Starting(t: Txn, autoModify: Option<bool>): Txn {
    t.(state := Declaring, autoModify := if autoModify.Some? then autoModify.value else t.autoModify)
  }

  /** An accepted declare is the sending of a control message, after attaching if need be. */
  lemma DeclareIsControl(w: World, s: nat, autoModify: Option<bool>, ready: World)
    requires TalkInv(w) && DeclareAccepted(w.conn, s)
    requires ready == if s in w.conn.txns then w else Attach(w, s)
    requires SessionInv(ready, s)
    ensures var t := Starting(ready.conn.txns[s], autoModify);
      && Step(w, Declare(s, autoModify)).conn == Control(ready.conn, s, t)
      && Step(w, Declare(s, autoModify)).talk == Said(ready.talk, t.coordinator, SentDeclare)
  {
    if s !in w.conn.txns {
      assert |w.conn.links| !in w.talk;
      assert Step(w, Declare(s, autoModify)).talk == Said(ready.talk, |w.conn.links|, SentDeclare);
    }
  }

  lemma InvAfterDeclare(w: World, s: nat, autoModify: Option<bool>)
    requires Inv(w)
    ensures Inv(Step(w, Declare(s, autoModify)))
  {
    var a := Declare(s, autoModify);
    if DeclareAccepted(w.conn, s) {
      if s !in w.conn.txns {
        InvAfterAttach(w, s);
      }
      var ready := if s in w.conn.txns then w else Attach(w, s);
      assert SessionInv(ready, s);
      DeclareIsControl(w, s, autoModify, ready);
      InvAfterControl(ready, s, Starting(ready.conn.txns[s], autoModify), SentDeclare, Step(w, a));
    } else {
      UnchangedStep(w, a);
    }
  }

  lemma UnchangedStep(w: World, a: Action)
    requires Inv(w) && Enabled(w.conn, a) && Next(w.conn, a) == w.conn && TalkAfter(w, a) == w.talk
    ensures Inv(Step(w, a))
  {
    forall u | u in w.conn.txns ensures SessionInv(Step(w, a), u) {
      assert SessionInv(w, u);
    }
  }

  lemma InvAfterDischarge(w: World, s: nat, failed: bool)
    requires Inv(w)
    ensures Inv(Step(w, Discharge(s, failed)))
  {
    if IsDeclared(w.conn, s) {
      assert SessionInv(w, s);
      var was := w.conn.txns[s];
      var t := was.(state := Discharging, failed := failed);
      InvAfterControl(w, s, t, SentDischarge(was.id, failed), Step(w, Discharge(s, failed)));
    } else {
      UnchangedStep(w, Discharge(s, failed));
    }
  }

  // ---------- Outcomes from the coordinator ----------

  /**
   An outcome can only be for the last control message sent, and it is always awaited: the
   library never sees one while it has no transaction or a declared one.
   */
  lemma OutcomeIsAwaited(w: World, s: nat, ctl: Ref)
    requires CanAnswer(w.conn, s, ctl) && SessionInv(w, s)
    ensures var t := w.conn.txns[s];
      && t.coordinator in w.talk && Awaiting(StageOf(w.talk[t.coordinator]))
      && ctl == Ref(t.coordinator, |w.conn.links[t.coordinator].deliveries| - 1)
      && (t.state == Declaring || t.state == Discharging)
  {
  }

  /** The links after a sweep or none: same coordinator links, no delivery removed. */
  ghost predicate CoordinatorsUntouched(c: Conn, links: seq<Link>) {
    && Grows(c.links, links)
    && forall u :: u in c.txns && c.txns[u].coordinator < |c.links| ==>
         links[c.txns[u].coordinator] == c.links[c.txns[u].coordinator]
  }

  lemma SweepSparesCoordinators(w: World, k: Sweep, links: seq<Link>, s: nat)
    requires (forall u :: u in w.conn.txns ==> SessionInv(w, u)) && s in w.conn.txns
    requires CoordinatorsUntouched(w.conn, links)
    ensures CoordinatorsUntouched(w.conn, SweepLinks(k, links, s, w.conn.txns[s].coordinator))
  {
    forall u | u in w.conn.txns
      ensures SweepLinks(k, links, s, w.conn.txns[s].coordinator)[w.conn.txns[u].coordinator]
              == w.conn.links[w.conn.txns[u].coordinator]
    {
      assert SessionInv(w, u);
    }
  }

  /** The step to a callback of session `s` after the outcome of the control message `ctl`. */
  ghost predicate Handles(w: World, s: nat, ctl: Ref, answer: Answer, w': World) {
    && CanAnswer(w.conn, s, ctl)
    && w'.talk == Said(w.talk, ctl.link, Got(answer))
    && CoordinatorsUntouched(w.conn, w'.conn.links) && s in w'.conn.txns
    && var t' := w'.conn.txns[s];
    && w'.conn.txns == w.conn.txns[s := t']
    && t'.coordinator == w.conn.txns[s].coordinator && t'.provisional == w.conn.txns[s].provisional
    && Handling(w'.conn.phase, s) == Some(ctl)
    && ctl.link in w.talk
    && var g := Advance(StageOf(w.talk[ctl.link]), Got(answer));
    && !Awaiting(g) && Agrees(t', g)
    && ((t'.state == NoTransaction || t'.state == Declaring) <==> ClearPending(w'.conn.phase, s))
    && (t'.error ==> ClearPending(w'.conn.phase, s))
    && !AboutTracker(w'.conn.phase)
    && (w'.conn.phase.Reporting? ==> w'.conn.phase.todo == t'.provisional)
  }

  lemma SessionAfterHandled(w: World, s: nat, ctl: Ref, answer: Answer, w': World)
    requires Handles(w, s, ctl, answer, w') && SessionInv(w, s)
    ensures SessionInv(w', s)
  {
    OutcomeIsAwaited(w, s, ctl);
    StageAfter(w.talk, ctl.link, Got(answer));
  }

  lemma OthersAfterHandled(w: World, s: nat, ctl: Ref, answer: Answer, w': World, u: nat)
    requires Handles(w, s, ctl, answer, w') && u in w.conn.txns && u != s
    requires SessionInv(w, s) && SessionInv(w, u)
    ensures SessionInv(w', u)
  {
    CoordinatorsDiffer(w, s, u);
  }

  lemma TrackersAfterHandled(w: World, s: nat, ctl: Ref, answer: Answer, w': World)
    requires Handles(w, s, ctl, answer, w') && TrackersInv(w.conn)
    ensures TrackersInv(w'.conn)
  {
    forall u, r | u in w'.conn.txns && r in w'.conn.txns[u].provisional ensures Tracked(w'.conn, r) {
      assert r in w.conn.txns[u].provisional;
      TrackedKept(w.conn, w'.conn, r);
    }
  }

  lemma TalkAfterHandled(w: World, s: nat, ctl: Ref, answer: Answer, w': World)
    requires Handles(w, s, ctl, answer, w') && TalkInv(w)
    ensures TalkInv(w')
  {
    forall l | l in w'.talk && !IsCoordinator(w'.conn, l) ensures StageOf(w'.talk[l]) == Closed {
      SameCoordinators(w.conn, w'.conn, l);
      assert w'.conn.txns[s].coordinator != l;
    }
  }

  lemma InvAfterHandled(w: World, s: nat, ctl: Ref, answer: Answer, w': World)
    requires Inv(w) && Handles(w, s, ctl, answer, w')
    ensures Inv(w')
  {
    SessionAfterHandled(w, s, ctl, answer, w');
    forall u | u in w'.conn.txns && u != s ensures SessionInv(w', u) {
      OthersAfterHandled(w, s, ctl, answer, w', u);
    }
    TrackersAfterHandled(w, s, ctl, answer, w');
    TalkAfterHandled(w, s, ctl, answer, w');
  }

  /** Settling a control message, and nothing else on the links. */
  lemma SettleControl(w: World, s: nat, ctl: Ref, u: nat)
    requires s in w.conn.txns && u in w.conn.txns && u != s
    requires SessionInv(w, s) && SessionInv(w, u)
    requires ctl.link == w.conn.txns[s].coordinator && Exists(w.conn.links, ctl)
    ensures SettleRef(w.conn, ctl).links[w.conn.txns[u].coordinator] == w.conn.links[w.conn.txns[u].coordinator]
  {
    CoordinatorsDiffer(w, s, u);
  }

  /** The coordinator has broken the protocol: the conversation is closed and the context dropped. */
  ghost predicate Drops(w: World, s: nat, ctl: Ref, answer: Answer, w': World) {
    && CanAnswer(w.conn, s, ctl)
    && w'.conn == Reset(w.conn, s, ctl) && w'.talk == Said(w.talk, ctl.link, Got(answer))
    && ctl.link in w.talk && Advance(StageOf(w.talk[ctl.link]), Got(answer)) == Closed
  }

  lemma SessionAfterReset(w: World, s: nat, ctl: Ref, answer: Answer, w': World, u: nat)
    requires Drops(w, s, ctl, answer, w') && u in w.conn.txns && u != s
    requires SessionInv(w, s) && SessionInv(w, u)
    ensures SessionInv(w', u)
  {
    SettleControl(w, s, ctl, u);
    CoordinatorsDiffer(w, s, u);
  }

  lemma TalkAfterReset(w: World, s: nat, ctl: Ref, answer: Answer, w': World)
    requires Drops(w, s, ctl, answer, w') && TalkInv(w)
    ensures TalkInv(w')
  {
    StageAfter(w.talk, ctl.link, Got(answer));
    forall l | l in w'.talk && !IsCoordinator(w'.conn, l) ensures StageOf(w'.talk[l]) == Closed {
      if l != ctl.link {
        forall u | u in w.conn.txns ensures w.conn.txns[u].coordinator != l {
          assert u != s ==> u in w'.conn.txns && w'.conn.txns[u] == w.conn.txns[u];
        }
      }
    }
  }

  lemma TrackedAfterReset(c: Conn, s: nat, c': Conn, r: Ref)
    requires Tracked(c, r) && c'.txns == c.txns - {s} && Grows(c.links, c'.links)
    ensures Tracked(c', r)
  {
    forall u | u in c'.txns ensures c'.txns[u].coordinator != r.link {
      assert u in c.txns && c'.txns[u] == c.txns[u];
    }
  }

  lemma TrackersAfterReset(w: World, s: nat, ctl: Ref, answer: Answer, w': World)
    requires Drops(w, s, ctl, answer, w') && TrackersInv(w.conn)
    ensures TrackersInv(w'.conn)
  {
    forall u, r | u in w'.conn.txns && r in w'.conn.txns[u].provisional ensures Tracked(w'.conn, r) {
      assert u in w.conn.txns && r in w.conn.txns[u].provisional;
      TrackedAfterReset(w.conn, s, w'.conn, r);
    }
  }

  lemma InvAfterReset(w: World, s: nat, ctl: Ref, answer: Answer, w': World)
    requires Inv(w) && Drops(w, s, ctl, answer, w')
    ensures Inv(w')
  {
    forall u | u in w'.conn.txns ensures SessionInv(w', u) {
      SessionAfterReset(w, s, ctl, answer, w', u);
    }
    TrackersAfterReset(w, s, ctl, answer, w');
    TalkAfterReset(w, s, ctl, answer, w');
  }

  lemma SessionAfterOther(w: World, s: nat, ctl: Ref, w': World, u: nat)
    requires CanAnswer(w.conn, s, ctl) && SessionInv(w, s) && u in w.conn.txns && SessionInv(w, u)
    requires w'.conn == SettleRef(w.conn, ctl) && w'.talk == Said(w.talk, ctl.link, Got(CtlOther))
    ensures SessionInv(w', u)
  {
    if u == s {
      OutcomeIsAwaited(w, s, ctl);
      StageAfter(w.talk, ctl.link, Got(CtlOther));
    } else {
      SettleControl(w, s, ctl, u);
      CoordinatorsDiffer(w, s, u);
    }
  }

  lemma TalkAfterOther(w: World, s: nat, ctl: Ref, w': World)
    requires CanAnswer(w.conn, s, ctl) && TalkInv(w)
    requires w'.conn == SettleRef(w.conn, ctl) && w'.talk == Said(w.talk, ctl.link, Got(CtlOther))
    ensures TalkInv(w')
  {
    forall l | l in w'.talk && !IsCoordinator(w'.conn, l) ensures StageOf(w'.talk[l]) == Closed {
      SameCoordinators(w.conn, w'.conn, l);
      assert w'.conn.txns[s].coordinator != l;
    }
  }

  lemma InvAfterOther(w: World, s: nat, ctl: Ref, w': World)
    requires Inv(w) && CanAnswer(w.conn, s, ctl)
    requires w'.conn == SettleRef(w.conn, ctl) && w'.talk == Said(w.talk, ctl.link, Got(CtlOther))
    ensures Inv(w')
  {
    forall u | u in w'.conn.txns ensures SessionInv(w', u) {
      SessionAfterOther(w, s, ctl, w', u);
    }
    TrackersAfterSettle(w.conn, ctl);
    TalkAfterOther(w, s, ctl, w');
  }

  lemma TrackersAfterSettle(c: Conn, ctl: Ref)
    requires TrackersInv(c)
    ensures TrackersInv(SettleRef(c, ctl))
  {
    var c' := SettleRef(c, ctl);
    forall u, r | u in c'.txns && r in c'.txns[u].provisional ensures Tracked(c', r) {
      TrackedKept(c, c', r);
    }
    if c'.phase.Reporting? {
      forall r | r in c'.phase.todo ensures Tracked(c', r) {
        TrackedKept(c, c', r);
      }
    }
    if AboutTracker(c'.phase) {
      TrackedKept(c, c', c'.phase.tracker);
    }
  }

  /** Every way of sweeping the links of session `s` leaves the coordinator links alone. */
  ghost predicate SweepsSpare(w: World, s: nat)
    requires s in w.conn.txns
  {
    var c, l := w.conn, w.conn.txns[s].coordinator;
    && CoordinatorsUntouched(c, c.links)
    && CoordinatorsUntouched(c, SweepLinks(SettleIncoming, c.links, s, l))
    && CoordinatorsUntouched(c, SweepLinks(SettleOutgoing, c.links, s, l))
    && CoordinatorsUntouched(c, SweepLinks(ModifyIncoming, SweepLinks(SettleOutgoing, c.links, s, l), s, l))
  }

  lemma AllSweepsSpare(w: World, s: nat)
    requires (forall u :: u in w.conn.txns ==> SessionInv(w, u)) && s in w.conn.txns
    ensures SweepsSpare(w, s)
  {
    var c, l := w.conn, w.conn.txns[s].coordinator;
    SweepSparesCoordinators(w, SettleIncoming, c.links, s);
    SweepSparesCoordinators(w, SettleOutgoing, c.links, s);
    SweepSparesCoordinators(w, ModifyIncoming, SweepLinks(SettleOutgoing, c.links, s, l), s);
  }

  lemma AbortHandles(w: World, s: nat, ctl: Ref, answer: Answer, error: bool, w': World)
    requires CanAnswer(w.conn, s, ctl) && SessionInv(w, s) && SweepsSpare(w, s)
    requires w.conn.txns[s].state == Discharging
    requires if w.conn.txns[s].failed then answer == CtlAccepted else answer == CtlRejected
    requires w'.conn == AbortOn(w.conn, s, ctl, error) && w'.talk == Said(w.talk, ctl.link, Got(answer))
    ensures Handles(w, s, ctl, answer, w')
  {
    OutcomeIsAwaited(w, s, ctl);
  }

  lemma CommitHandles(w: World, s: nat, ctl: Ref, w': World)
    requires CanAnswer(w.conn, s, ctl) && SessionInv(w, s) && SweepsSpare(w, s)
    requires w.conn.txns[s].state == Discharging && !w.conn.txns[s].failed
    requires w'.conn == CommitOn(w.conn, s, ctl) && w'.talk == Said(w.talk, ctl.link, Got(CtlAccepted))
    ensures Handles(w, s, ctl, CtlAccepted, w')
  {
    OutcomeIsAwaited(w, s, ctl);
  }

  lemma DeclareAnswerHandles(w: World, s: nat, ctl: Ref, answer: Answer, w': World)
    requires CanAnswer(w.conn, s, ctl) && SessionInv(w, s) && SweepsSpare(w, s)
    requires w.conn.txns[s].state == Declaring && (answer.DeclaredWith? || answer == CtlRejected)
    requires w'.conn == AnsweredOn(w.conn, s, ctl, answer) && w'.talk == Said(w.talk, ctl.link, Got(answer))
    ensures Handles(w, s, ctl, answer, w')
  {
    OutcomeIsAwaited(w, s, ctl);
  }

  lemma WrongAnswerDrops(w: World, s: nat, ctl: Ref, answer: Answer, w': World)
    requires CanAnswer(w.conn, s, ctl) && SessionInv(w, s)
    requires w'.conn == Reset(w.conn, s, ctl) && w'.talk == Said(w.talk, ctl.link, Got(answer))
    requires var t := w.conn.txns[s];
      match answer
      case DeclaredWith(_) => t.state != Declaring
      case CtlAccepted => t.state != Discharging
      case CtlRejected => t.state != Declaring && !(t.state == Discharging && !t.failed)
      case CtlOther => false
    ensures Drops(w, s, ctl, answer, w')
  {
    OutcomeIsAwaited(w, s, ctl);
  }

  lemma InvAfterAnswered(w: World, s: nat, ctl: Ref, answer: Answer)
    requires Inv(w) && CanAnswer(w.conn, s, ctl)
    ensures Inv(Step(w, Answered(s, ctl, answer)))
  {
    var t, w' := w.conn.txns[s], Step(w, Answered(s, ctl, answer));
    AllSweepsSpare(w, s);
    if answer == CtlOther {
      InvAfterOther(w, s, ctl, w');
    } else if t.state == Declaring && answer != CtlAccepted {
      DeclareAnswerHandles(w, s, ctl, answer, w');
      InvAfterHandled(w, s, ctl, answer, w');
    } else if t.state == Discharging && answer == CtlAccepted && !t.failed {
      CommitHandles(w, s, ctl, w');
      InvAfterHandled(w, s, ctl, answer, w');
    } else if t.state == Discharging && answer == (if t.failed then CtlAccepted else CtlRejected) {
      AbortHandles(w, s, ctl, answer, !t.failed, w');
      InvAfterHandled(w, s, ctl, answer, w');
    } else {
      WrongAnswerDrops(w, s, ctl, answer, w');
      InvAfterReset(w, s, ctl, answer, w');
    }
  }

  // ---------- The library after a callback ----------

  /** The end of a callback about `ctl`: it is settled, and the context is kept or cleared. */
  ghost predicate Finishes(w: World, s: nat, ctl: Ref, w': World) {
    && Handling(w.conn.phase, s) == Some(ctl)
    && w'.conn.links == SettleRef(w.conn, ctl).links && w'.conn.phase == Idle && w'.talk == w.talk
    && s in w.conn.txns && s in w'.conn.txns && w'.conn.txns == w.conn.txns[s := w'.conn.txns[s]]
    && w'.conn.txns[s] == if ClearPending(w.conn.phase, s)
                          then w.conn.txns[s].(id := [], error := false) else w.conn.txns[s]
  }

  lemma SessionAfterReturn(w: World, s: nat, ctl: Ref, w': World, u: nat)
    requires Finishes(w, s, ctl, w') && SessionInv(w, s) && u in w.conn.txns && SessionInv(w, u)
    ensures SessionInv(w', u)
  {
    if u != s {
      SettleControl(w, s, ctl, u);
      CoordinatorsDiffer(w, s, u);
    }
  }

  lemma TrackersAfterReturn(w: World, s: nat, ctl: Ref, w': World)
    requires Finishes(w, s, ctl, w') && TrackersInv(w.conn)
    ensures TrackersInv(w'.conn)
  {
    forall u, r | u in w'.conn.txns && r in w'.conn.txns[u].provisional ensures Tracked(w'.conn, r) {
      assert r in w.conn.txns[u].provisional;
      TrackedKept(w.conn, w'.conn, r);
    }
  }

  lemma TalkAfterReturn(w: World, s: nat, ctl: Ref, w': World)
    requires Finishes(w, s, ctl, w') && TalkInv(w)
    ensures TalkInv(w')
  {
    forall l | l in w'.talk && !IsCoordinator(w'.conn, l) ensures StageOf(w'.talk[l]) == Closed {
      SameCoordinators(w.conn, w'.conn, l);
    }
  }

  lemma InvAfterFinish(w: World, s: nat, ctl: Ref, w': World)
    requires Inv(w) && Finishes(w, s, ctl, w')
    ensures Inv(w')
  {
    forall u | u in w'.conn.txns ensures SessionInv(w', u) {
      SessionAfterReturn(w, s, ctl, w', u);
    }
    TrackersAfterReturn(w, s, ctl, w');
    TalkAfterReturn(w, s, ctl, w');
  }

  lemma ReportsAreQuiet(c: Conn)
    requires c.phase.Reporting? && c.phase.session in c.txns
    ensures SameTalk(c, ReturnOn(c)) && SamePhase(c.phase, ReturnOn(c).phase) && PhaseInv(ReturnOn(c))
  {
  }

  lemma TrackersAfterReports(c: Conn)
    requires TrackersInv(c) && c.phase.Reporting?
    ensures TrackersInv(ReturnOn(c))
  {
    var c' := ReturnOn(c);
    forall u, r | u in c'.txns && r in c'.txns[u].provisional ensures Tracked(c', r) {
      assert r in c.txns[u].provisional;
      TrackedKept(c, c', r);
    }
  }

  lemma InvAfterReports(w: World)
    requires Inv(w) && w.conn.phase.Reporting? && Enabled(w.conn, Return)
    ensures Inv(Step(w, Return))
  {
    ReportsAreQuiet(w.conn);
    QuietStep(w, Step(w, Return));
    TrackersAfterReports(w.conn);
  }

  lemma InvAfterTracker(w: World)
    requires Inv(w) && AboutTracker(w.conn.phase)
    ensures Inv(Step(w, Return))
  {
    var w' := Step(w, Return);
    var r := w.conn.phase.tracker;
    PutIsQuiet(w.conn, r, At(w.conn.links, r).(settled := true));
    QuietStep(w, w');
    forall u, q | u in w'.conn.txns && q in w'.conn.txns[u].provisional ensures Tracked(w'.conn, q) {
      TrackedKept(w.conn, w'.conn, q);
    }
  }

  lemma ReturnFinishes(w: World, s: nat, ctl: Ref)
    requires Handling(w.conn.phase, s) == Some(ctl) && !w.conn.phase.Reporting? && s in w.conn.txns
    ensures Finishes(w, s, ctl, Step(w, Return))
  {
  }

  lemma InvAfterReturn(w: World)
    requires Inv(w) && Enabled(w.conn, Return)
    ensures Inv(Step(w, Return))
  {
    if w.conn.phase.Reporting? {
      InvAfterReports(w);
    } else if AboutTracker(w.conn.phase) {
      InvAfterTracker(w);
    } else {
      ReturnFinishes(w, w.conn.phase.session, w.conn.phase.ctl);
      InvAfterFinish(w, w.conn.phase.session, w.conn.phase.ctl, Step(w, Return));
    }
  }

  // ---------- Every run ----------

  lemma InvKept(w: World, a: Action)
    requires Inv(w) && Enabled(w.conn, a)
    ensures Inv(Step(w, a))
  {
    match a
    case Declare(s, autoModify) => InvAfterDeclare(w, s, autoModify);
    case Discharge(s, failed) => InvAfterDischarge(w, s, failed);
    case Answered(s, ctl, answer) => InvAfterAnswered(w, s, ctl, answer);
    case Return => InvAfterReturn(w);
    case _ => InvAfterQuiet(w, a);
  }

  lemma InvRunStep(run: seq<World>, acts: seq<Action>, i: nat)
    requires IsRun(run, acts) && 0 < i < |run| && Inv(run[i - 1])
    ensures Inv(run[i])
  {
    RunStep(run, acts, i - 1);
    InvKept(run[i - 1], acts[i - 1]);
    assert run[i] == Step(run[i - 1], acts[i - 1]);
  }

  lemma {:induction false} InvOnRuns(run: seq<World>, acts: seq<Action>, i: nat)
    requires IsRun(run, acts) && i < |run|
    ensures Inv(run[i])
    decreases i
  {
    if i > 0 {
      InvOnRuns(run, acts, i - 1);
      InvRunStep(run, acts, i);
    }
  }

  /**
   In every run, with handlers free to declare again inside any callback, each
   conversation with a coordinator keeps to the protocol: declare and discharge messages
   strictly alternate with their outcomes, each discharge carries the id of the declare
   before it, and nothing follows a protocol error.
   */
  lemma ConversationsConform(run: seq<World>, acts: seq<Action>, i: nat, l: nat)
    requires IsRun(run, acts) && i < |run| && l in run[i].talk
    ensures StageOf(run[i].talk[l]) != Violation
  {
    InvOnRuns(run, acts, i);
    if IsCoordinator(run[i].conn, l) {
      var s :| s in run[i].conn.txns && run[i].conn.txns[s].coordinator == l;
      assert SessionInv(run[i], s);
    }
  }

  /** A control message that has been sent and not settled, and is not being handled now. */
  predicate Outstanding(c: Conn, s: nat, j: nat)
    requires s in c.txns && c.txns[s].coordinator < |c.links|
  {
    var ds := c.links[c.txns[s].coordinator].deliveries;
    j < |ds| && !ds[j].settled && HandledIndex(c.phase, s) != Some(j)
  }

  /** In every run each session has at most one control message outstanding, and none is transactional. */
  lemma OneControlOutstanding(run: seq<World>, acts: seq<Action>, i: nat, s: nat, j: nat, k: nat)
    requires IsRun(run, acts) && i < |run| && s in run[i].conn.txns
    ensures run[i].conn.txns[s].coordinator < |run[i].conn.links|
    ensures Outstanding(run[i].conn, s, j) && Outstanding(run[i].conn, s, k) ==> j == k
    ensures j < |run[i].conn.links[run[i].conn.txns[s].coordinator].deliveries| ==>
      run[i].conn.links[run[i].conn.txns[s].coordinator].deliveries[j].local == NoState
  {
    InvOnRuns(run, acts, i);
    assert SessionInv(run[i], s);
  }

  /**
   In every run, outside the callbacks that end a transaction, a session's id is empty
   unless its transaction is declared or discharging, and no error is set.
   */
  lemma IdOnlyInsideTransaction(run: seq<World>, acts: seq<Action>, i: nat, s: nat)
    requires IsRun(run, acts) && i < |run| && s in run[i].conn.txns
    requires !ClearPending(run[i].conn.phase, s)
    ensures var t := run[i].conn.txns[s];
      && (t.id != [] ==> t.state == Declared || t.state == Discharging)
      && !t.error
  {
    InvOnRuns(run, acts, i);
    assert SessionInv(run[i], s);
  }

  /** In every run, an outcome finds its session declaring or discharging, never otherwise. */
  lemma NoUnexpectedOutcome(run: seq<World>, acts: seq<Action>, i: nat)
    requires IsRun(run, acts) && i < |acts| && acts[i].Answered?
    ensures acts[i].session in run[i].conn.txns
    ensures var t := run[i].conn.txns[acts[i].session];
      && (t.state == Declaring || t.state == Discharging)
      && t.coordinator < |run[i].conn.links| && acts[i].ctl.link == t.coordinator
      && acts[i].ctl.index == |run[i].conn.links[t.coordinator].deliveries| - 1
  {
    RunStep(run, acts, i);
    InvOnRuns(run, acts, i);
    assert SessionInv(run[i], acts[i].session);
    OutcomeIsAwaited(run[i], acts[i].session, acts[i].ctl);
  }
}
