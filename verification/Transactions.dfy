/**
 Local transactions on the sessions of one connection: the transaction context of each
 session, the deliveries on every link, and what the library does at each application
 call and each event.

 The handler callbacks the library makes are points where arbitrary application code
 runs, and that code may call the library again. `Phase` is the library's own position
 in such a callback: application steps may happen in any phase, events only when the
 library is idle, and `Return` resumes the code after the callback.
 */
module Transactions {
  import opened Common

  type Id = seq<nat>

  datatype Kind = Accepted | Rejected | Released | Modified

  datatype Disposition =
    | NoState
    | Final(kind: Kind, failed: bool)
    | Transactional(id: Id, outcome: Option<Kind>)

  datatype Delivery = Delivery(local: Disposition, settled: bool, remote: Disposition, remoteSettled: bool)

  /** A link with its deliveries, oldest first; `presettled` is the sender's settle mode. */
  datatype Link = Link(session: nat, sender: bool, presettled: bool, autoSettle: bool, deliveries: seq<Delivery>)

  /** A delivery, by its link and its place on the link. */
  datatype Ref = Ref(link: nat, index: nat)

  datatype Progress = NoTransaction | Declaring | Declared | Discharging

  datatype Txn = Txn(coordinator: nat, state: Progress, id: Id, failed: bool,
                     autoModify: bool, error: bool, provisional: set<Ref>)

  datatype Phase =
    | Idle
    | InDeclared(session: nat, ctl: Ref)
    | InAborted(session: nat, ctl: Ref)
    | Reporting(session: nat, ctl: Ref, todo: set<Ref>)
    | InCommitted(session: nat, ctl: Ref)
    | InError(session: nat, ctl: Ref)
    | InTracker(tracker: Ref)
    | InTrackerSettle(tracker: Ref)

  datatype Conn = Conn(links: seq<Link>, txns: map<nat, Txn>, phase: Phase)

  /** The disposition a coordinator gives to a control message. */
  datatype Answer = DeclaredWith(id: Id) | CtlAccepted | CtlRejected | CtlOther

  datatype Action =
    // application calls
    | OpenLink(session: nat, sender: bool, presettled: bool, autoSettle: bool)
    | Declare(session: nat, autoModify: Option<bool>)
    | Discharge(session: nat, failed: bool)
    | Send(link: nat)
    | Dispose(ref: Ref, kind: Kind)
    | Settle(ref: Ref)
    // events
    | Arrive(link: nat)
    | Answered(session: nat, ctl: Ref, answer: Answer)
    | TrackerUpdate(ref: Ref, remote: Disposition, remoteSettled: bool)
    // the library after a callback
    | Report(tracker: Ref)
    | Return

  /** The callbacks about an outgoing delivery: first those about its outcome, then `on_tracker_settle`. */
  predicate AboutTracker(p: Phase) {
    p.InTracker? || p.InTrackerSettle?
  }

  const EMPTY := Conn([], map[], Idle)

  // ---------- Reading the state ----------

  predicate Exists(links: seq<Link>, r: Ref) {
    r.link < |links| && r.index < |links[r.link].deliveries|
  }

  function At(links: seq<Link>, r: Ref): Delivery
    requires Exists(links, r)
  {
    links[r.link].deliveries[r.index]
  }

  function Put(links: seq<Link>, r: Ref, d: Delivery): (ls: seq<Link>)
    requires Exists(links, r)
    ensures |ls| == |links|
    ensures forall q :: Exists(ls, q) <==> Exists(links, q)
    ensures forall q :: Exists(links, q) ==> At(ls, q) == if q == r then d else At(links, q)
  {
    links[r.link := links[r.link].(deliveries := links[r.link].deliveries[r.index := d])]
  }

  predicate IsEmpty(c: Conn, s: nat) {
    s !in c.txns || c.txns[s].state == NoTransaction
  }

  predicate IsDeclared(c: Conn, s: nat) {
    s in c.txns && c.txns[s].state == Declared
  }

  predicate IsCoordinator(c: Conn, l: nat) {
    exists s :: s in c.txns && c.txns[s].coordinator == l
  }

  /** A sender link of the session other than its coordinator link. */
  predicate Outgoing(c: Conn, s: nat, l: nat) {
    && l < |c.links|
    && c.links[l].sender && c.links[l].session == s
    && !(s in c.txns && c.txns[s].coordinator == l)
  }

  predicate AnyUnsettled(ds: seq<Delivery>) {
    exists j :: 0 <= j < |ds| && !ds[j].settled
  }

  predicate HasUnsettledOutgoing(c: Conn, s: nat) {
    exists l :: 0 <= l < |c.links| && Outgoing(c, s, l) && AnyUnsettled(c.links[l].deliveries)
  }

  // ---------- Sending and disposing ----------

  /** The local disposition a message sent now on a link of session `s` starts with. */
  function Tag(c: Conn, s: nat): Disposition {
    if IsDeclared(c, s) then Transactional(c.txns[s].id, None) else NoState
  }

  function SendOn(c: Conn, l: nat): Conn
    requires l < |c.links|
  {
    var k := c.links[l];
    var d := Delivery(Tag(c, k.session), k.presettled, NoState, false);
    c.(links := c.links[l := k.(deliveries := k.deliveries + [d])])
  }

  /** The disposition `accept`, `reject`, `release` or `modify` writes. */
  function Disposed(c: Conn, r: Ref, kind: Kind): Delivery
    requires Exists(c.links, r)
  {
    var d := At(c.links, r);
    var s := c.links[r.link].session;
    if IsDeclared(c, s) then
      d.(local := Transactional(c.txns[s].id, Some(kind)))
    else
      // the modified section exists only while nothing else has been written
      var failed := kind == Modified && (d.local == NoState || (d.local.Final? && d.local.kind == Modified));
      d.(local := Final(kind, failed), settled := true)
  }

  // ---------- The sweeps at commit and abort ----------

  datatype Sweep = SettleOutgoing | SettleIncoming | ModifyIncoming

  predicate Covers(w: Sweep, links: seq<Link>, s: nat, coordinator: nat, l: nat)
    requires l < |links|
  {
    && links[l].session == s
    && if w == SettleOutgoing then links[l].sender && l != coordinator else !links[l].sender
  }

  function SweepDelivery(w: Sweep, d: Delivery): Delivery {
    if d.settled then d
    else match w
      case SettleOutgoing => d.(local := NoState, settled := true)
      case SettleIncoming => d.(settled := true)
      case ModifyIncoming => d.(local := Final(Modified, true), settled := true)
  }

  function SweepAll(w: Sweep, ds: seq<Delivery>): (r: seq<Delivery>)
    ensures |r| == |ds|
    ensures forall j :: 0 <= j < |ds| ==> r[j] == SweepDelivery(w, ds[j])
  {
    seq(|ds|, j requires 0 <= j < |ds| => SweepDelivery(w, ds[j]))
  }

  function SweepLinks(w: Sweep, links: seq<Link>, s: nat, coordinator: nat): (r: seq<Link>)
    ensures |r| == |links|
    ensures forall l :: 0 <= l < |links| ==>
      r[l] == if Covers(w, links, s, coordinator, l)
              then links[l].(deliveries := SweepAll(w, links[l].deliveries)) else links[l]
  {
    seq(|links|, l requires 0 <= l < |links| =>
      if Covers(w, links, s, coordinator, l)
      then links[l].(deliveries := SweepAll(w, links[l].deliveries)) else links[l])
  }

  // ---------- The steps ----------

  function DeclareOn(c: Conn, s: nat, autoModify: Option<bool>): Conn {
    if !IsEmpty(c, s) || HasUnsettledOutgoing(c, s) then c
    else
      var attached :=
        if s in c.txns then c
        else c.(links := c.links + [Link(s, true, false, true, [])],
                txns := c.txns[s := Txn(|c.links|, NoTransaction, [], false, true, false, {})]);
      var t := attached.txns[s];
      var started := attached.(txns := attached.txns[s :=
        t.(state := Declaring, autoModify := if autoModify.Some? then autoModify.value else t.autoModify)]);
      if t.coordinator < |started.links| then SendOn(started, t.coordinator) else started
  }

  function DischargeOn(c: Conn, s: nat, failed: bool): Conn {
    if !IsDeclared(c, s) then c
    else
      var t := c.txns[s];
      var started := c.(txns := c.txns[s := t.(state := Discharging, failed := failed)]);
      if t.coordinator < |started.links| then SendOn(started, t.coordinator) else started
  }

  function SettleRef(c: Conn, r: Ref): Conn {
    if Exists(c.links, r) then c.(links := Put(c.links, r, At(c.links, r).(settled := true))) else c
  }

  /** A protocol error on the coordinator link: the link is closed and the context dropped. */
  function Reset(c: Conn, s: nat, ctl: Ref): Conn {
    SettleRef(c.(txns := c.txns - {s}), ctl)
  }

  function AbortOn(c: Conn, s: nat, ctl: Ref, error: bool): Conn
    requires s in c.txns
  {
    var t := c.txns[s];
    var out := SweepLinks(SettleOutgoing, c.links, s, t.coordinator);
    Conn(if t.autoModify then SweepLinks(ModifyIncoming, out, s, t.coordinator) else out,
         c.txns[s := t.(state := NoTransaction, error := error)],
         InAborted(s, ctl))
  }

  function CommitOn(c: Conn, s: nat, ctl: Ref): Conn
    requires s in c.txns
  {
    var t := c.txns[s];
    Conn(SweepLinks(SettleIncoming, c.links, s, t.coordinator),
         c.txns[s := t.(state := NoTransaction)],
         Reporting(s, ctl, t.provisional))
  }

  function AnsweredOn(c: Conn, s: nat, ctl: Ref, answer: Answer): Conn
    requires s in c.txns
  {
    var t := c.txns[s];
    match answer
    case DeclaredWith(id) =>
      if t.state == Declaring then
        c.(txns := c.txns[s := t.(id := id, state := Declared)], phase := InDeclared(s, ctl))
      else Reset(c, s, ctl)
    case CtlAccepted =>
      if t.state == Discharging then
        if t.failed then AbortOn(c, s, ctl, false) else CommitOn(c, s, ctl)
      else Reset(c, s, ctl)
    case CtlRejected =>
      if t.state == Declaring then
        c.(txns := c.txns[s := t.(state := NoTransaction, error := true)], phase := InError(s, ctl))
      else if t.state == Discharging && !t.failed then AbortOn(c, s, ctl, true)
      else Reset(c, s, ctl)
    case CtlOther => SettleRef(c, ctl)
  }

  function TrackerUpdateOn(c: Conn, r: Ref, remote: Disposition, remoteSettled: bool): Conn
    requires Exists(c.links, r)
  {
    var s := c.links[r.link].session;
    var links := Put(c.links, r, At(c.links, r).(remote := remote, remoteSettled := remoteSettled));
    var txns := if remote.Transactional? && s in c.txns && c.txns[s].id == remote.id
                then c.txns[s := c.txns[s].(provisional := c.txns[s].provisional + {r})] else c.txns;
    Conn(links, txns, InTracker(r))
  }

  function ReportOn(c: Conn, r: Ref): Conn
    requires c.phase.Reporting?
  {
    var c' := c.(phase := c.phase.(todo := c.phase.todo - {r}));
    if Exists(c.links, r) && At(c.links, r).remoteSettled && c.links[r.link].autoSettle then SettleRef(c', r) else c'
  }

  /** The end of a discharge or a refused declare: the id and the error are cleared. */
  function ClearOn(c: Conn, s: nat, ctl: Ref): Conn {
    var c' := if s in c.txns then c.(txns := c.txns[s := c.txns[s].(id := [], error := false)]) else c;
    SettleRef(c', ctl).(phase := Idle)
  }

  function ReturnOn(c: Conn): Conn {
    match c.phase
    case Idle => c
    case InDeclared(_, ctl) => SettleRef(c, ctl).(phase := Idle)
    case InAborted(s, ctl) => ClearOn(c, s, ctl)
    case InError(s, ctl) => ClearOn(c, s, ctl)
    case InCommitted(s, ctl) => ClearOn(c, s, ctl)
    case Reporting(s, ctl, _) =>
      var txns := if s in c.txns then c.txns[s := c.txns[s].(provisional := {})] else c.txns;
      Conn(c.links, txns, InCommitted(s, ctl))
    case InTracker(r) =>
      if Exists(c.links, r) && At(c.links, r).remoteSettled
         && !(c.links[r.link].session in c.txns && c.txns[c.links[r.link].session].state == Discharging)
      then c.(phase := InTrackerSettle(r)) else c.(phase := Idle)
    case InTrackerSettle(r) =>
      if Exists(c.links, r) && c.links[r.link].autoSettle then SettleRef(c, r).(phase := Idle) else c.(phase := Idle)
  }

  predicate CanAnswer(c: Conn, s: nat, ctl: Ref) {
    && c.phase == Idle && s in c.txns && ctl.link == c.txns[s].coordinator
    && Exists(c.links, ctl) && !At(c.links, ctl).settled
  }

  /**
   When an action can happen. Events come only while no callback is running, outcomes only
   for deliveries not yet settled here, and the application touches neither the coordinator
   links nor a settled delivery.
   */
  predicate Enabled(c: Conn, a: Action) {
    match a
    case OpenLink(_, _, _, _) => true
    case Declare(_, _) => true
    case Discharge(_, _) => true
    case Send(l) => l < |c.links| && c.links[l].sender && !IsCoordinator(c, l)
    case Dispose(r, _) =>
      && Exists(c.links, r) && !c.links[r.link].sender && !At(c.links, r).settled
      && (IsDeclared(c, c.links[r.link].session) ==> !At(c.links, r).local.Final?)
    case Settle(r) => Exists(c.links, r) && !IsCoordinator(c, r.link)
    case Arrive(l) => c.phase == Idle && l < |c.links| && !c.links[l].sender
    case Answered(s, ctl, _) => CanAnswer(c, s, ctl)
    case TrackerUpdate(r, _, _) =>
      && c.phase == Idle && Exists(c.links, r) && c.links[r.link].sender
      && !IsCoordinator(c, r.link) && !At(c.links, r).settled
    case Report(r) => c.phase.Reporting? && r in c.phase.todo
    case Return => c.phase != Idle && (c.phase.Reporting? ==> c.phase.todo == {})
  }

  function Next(c: Conn, a: Action): Conn
    requires Enabled(c, a)
  {
    match a
    case OpenLink(s, sender, presettled, autoSettle) =>
      c.(links := c.links + [Link(s, sender, presettled, autoSettle, [])])
    case Declare(s, autoModify) => DeclareOn(c, s, autoModify)
    case Discharge(s, failed) => DischargeOn(c, s, failed)
    case Send(l) => SendOn(c, l)
    case Dispose(r, kind) => c.(links := Put(c.links, r, Disposed(c, r, kind)))
    case Settle(r) => SettleRef(c, r)
    case Arrive(l) =>
      c.(links := c.links[l := c.links[l].(deliveries :=
        c.links[l].deliveries + [Delivery(NoState, false, NoState, false)])])
    case Answered(s, ctl, answer) => AnsweredOn(c, s, ctl, answer)
    case TrackerUpdate(r, remote, remoteSettled) => TrackerUpdateOn(c, r, remote, remoteSettled)
    case Report(r) => ReportOn(c, r)
    case Return => ReturnOn(c)
  }
}
