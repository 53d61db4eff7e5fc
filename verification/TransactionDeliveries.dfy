/**
 What a transaction does to the deliveries of its session, over every run: outgoing
 messages of a client that sends only inside a transaction, and provisional outcomes of
 incoming deliveries.
 */
module TransactionDeliveries {
  import opened Common
  import opened Transactions
  import opened TransactionRuns

  // ---------- What steps do to the deliveries on sender links ----------

  /** A delivery on a sender link keeps its local disposition until it is settled, for good. */
  ghost predicate KeptOrSettled(c: Conn, c': Conn, r: Ref)
    requires Exists(c.links, r)
  {
    && Exists(c'.links, r)
    && c'.links[r.link].session == c.links[r.link].session && c'.links[r.link].sender
    && (At(c'.links, r).settled || (!At(c.links, r).settled && At(c'.links, r).local == At(c.links, r).local))
  }

  ghost predicate SendersStable(c: Conn, c': Conn) {
    forall r :: Exists(c.links, r) && c.links[r.link].sender ==> KeptOrSettled(c, c', r)
  }

  lemma SweepIsStable(k: Sweep, links: seq<Link>, s: nat, l: nat, r: Ref)
    requires Exists(links, r)
    ensures var links' := SweepLinks(k, links, s, l);
      && Exists(links', r)
      && links'[r.link].session == links[r.link].session && links'[r.link].sender == links[r.link].sender
      && (At(links', r) == At(links, r) || At(links', r).settled)
      && (At(links, r).settled ==> At(links', r) == At(links, r))
  {
  }

  lemma AnswersAreStable(c: Conn, s: nat, ctl: Ref, answer: Answer)
    requires CanAnswer(c, s, ctl)
    ensures SendersStable(c, AnsweredOn(c, s, ctl, answer))
  {
    var c', t := AnsweredOn(c, s, ctl, answer), c.txns[s];
    var out := SweepLinks(SettleOutgoing, c.links, s, t.coordinator);
    forall r | Exists(c.links, r) && c.links[r.link].sender ensures KeptOrSettled(c, c', r) {
      SweepIsStable(SettleIncoming, c.links, s, t.coordinator, r);
      SweepIsStable(SettleOutgoing, c.links, s, t.coordinator, r);
      SweepIsStable(ModifyIncoming, out, s, t.coordinator, r);
    }
  }

  lemma PutIsStable(c: Conn, c': Conn, q: Ref, d: Delivery)
    requires Exists(c.links, q) && c'.links == Put(c.links, q, d)
    requires d.settled || (!At(c.links, q).settled && d.local == At(c.links, q).local)
    ensures SendersStable(c, c')
  {
  }

  lemma AppendIsStable(c: Conn, c': Conn, l: nat, d: Delivery)
    requires l < |c.links|
    requires c'.links == c.links[l := c.links[l].(deliveries := c.links[l].deliveries + [d])]
    ensures SendersStable(c, c')
  {
  }

  lemma DeclareIsStable(c: Conn, s: nat, autoModify: Option<bool>)
    ensures SendersStable(c, DeclareOn(c, s, autoModify))
  {
  }

  lemma DischargeIsStable(c: Conn, s: nat, failed: bool)
    ensures SendersStable(c, DischargeOn(c, s, failed))
  {
  }

  lemma SettleIsStable(c: Conn, c': Conn, q: Ref)
    requires c'.links == SettleRef(c, q).links
    ensures SendersStable(c, c')
  {
    if Exists(c.links, q) {
      PutIsStable(c, c', q, At(c.links, q).(settled := true));
    }
  }

  lemma ReturnIsStable(c: Conn)
    requires Enabled(c, Return)
    ensures SendersStable(c, ReturnOn(c))
  {
    if AboutTracker(c.phase) {
      SettleIsStable(c, SettleRef(c, c.phase.tracker), c.phase.tracker);
    } else {
      SettleIsStable(c, SettleRef(c, c.phase.ctl), c.phase.ctl);
    }
  }

  lemma StepsAreStable(c: Conn, a: Action)
    requires Enabled(c, a)
    ensures SendersStable(c, Next(c, a))
  {
    var c' := Next(c, a);
    match a
    case OpenLink(_, _, _, _) =>
    case Declare(s, autoModify) => DeclareIsStable(c, s, autoModify);
    case Discharge(s, failed) => DischargeIsStable(c, s, failed);
    case Send(l) => AppendIsStable(c, c', l, c'.links[l].deliveries[|c.links[l].deliveries|]);
    case Dispose(r, kind) =>
    case Settle(r) => SettleIsStable(c, c', r);
    case Arrive(l) => AppendIsStable(c, c', l, Delivery(NoState, false, NoState, false));
    case Answered(s, ctl, answer) => AnswersAreStable(c, s, ctl, answer);
    case TrackerUpdate(r, remote, remoteSettled) =>
      PutIsStable(c, c', r, At(c.links, r).(remote := remote, remoteSettled := remoteSettled));
    case Report(r) => SettleIsStable(c, SettleRef(c, r), r);
    case Return => ReturnIsStable(c);
  }

  predicate Sends(a: Action) {
    a.Send? || a.Declare? || a.Discharge?
  }

  lemma SettlingAddsNone(c: Conn, q: Ref, r: Ref)
    ensures Exists(SettleRef(c, q).links, r) <==> Exists(c.links, r)
  {
  }

  lemma ReturnAddsNone(c: Conn, r: Ref)
    ensures Exists(ReturnOn(c).links, r) <==> Exists(c.links, r)
  {
    if AboutTracker(c.phase) {
      SettlingAddsNone(c, c.phase.tracker, r);
    } else if !c.phase.Idle? {
      SettlingAddsNone(c, c.phase.ctl, r);
    }
  }

  lemma AnswerAddsNone(c: Conn, s: nat, ctl: Ref, answer: Answer, r: Ref)
    requires CanAnswer(c, s, ctl)
    ensures Exists(AnsweredOn(c, s, ctl, answer).links, r) <==> Exists(c.links, r)
  {
  }

  lemma OnlySendsAdd(c: Conn, a: Action, r: Ref)
    requires Enabled(c, a) && !Sends(a) && !a.Arrive? && Exists(Next(c, a).links, r)
    ensures Exists(c.links, r)
  {
    if a.Return? {
      ReturnAddsNone(c, r);
    } else if a.Answered? {
      AnswerAddsNone(c, a.session, a.ctl, a.answer, r);
    }
  }

  /** New deliveries on sender links: messages the application sends, and control messages. */
  lemma NewDeliveries(c: Conn, a: Action, r: Ref)
    requires Enabled(c, a) && Exists(Next(c, a).links, r) && !Exists(c.links, r)
    requires Next(c, a).links[r.link].sender
    ensures Sends(a)
    ensures a.Send? ==> r.link == a.link && At(Next(c, a).links, r).local == Tag(c, c.links[a.link].session)
    ensures !a.Send? ==> a.session in Next(c, a).txns && r.link == Next(c, a).txns[a.session].coordinator
  {
    if !Sends(a) && !a.Arrive? {
      OnlySendsAdd(c, a, r);
    }
  }

  lemma AnswersKeepRole(c: Conn, s: nat, ctl: Ref, answer: Answer, l: nat)
    requires CanAnswer(c, s, ctl) && l < |c.links|
    ensures var links' := AnsweredOn(c, s, ctl, answer).links;
      l < |links'| && links'[l].sender == c.links[l].sender && links'[l].session == c.links[l].session
  {
  }

  lemma SettlingKeepsRole(c: Conn, q: Ref, l: nat)
    requires l < |c.links|
    ensures var links' := SettleRef(c, q).links;
      l < |links'| && links'[l].sender == c.links[l].sender && links'[l].session == c.links[l].session
  {
  }

  lemma ReturnKeepsRole(c: Conn, l: nat)
    requires l < |c.links|
    ensures var links' := ReturnOn(c).links;
      l < |links'| && links'[l].sender == c.links[l].sender && links'[l].session == c.links[l].session
  {
    if AboutTracker(c.phase) {
      SettlingKeepsRole(c, c.phase.tracker, l);
    } else if !c.phase.Idle? {
      SettlingKeepsRole(c, c.phase.ctl, l);
    }
  }

  /** Links keep their session and their direction. */
  lemma LinksKeepRole(c: Conn, a: Action, l: nat)
    requires Enabled(c, a) && l < |c.links|
    ensures l < |Next(c, a).links|
    ensures Next(c, a).links[l].sender == c.links[l].sender && Next(c, a).links[l].session == c.links[l].session
  {
    if a.Answered? {
      AnswersKeepRole(c, a.session, a.ctl, a.answer, l);
    } else if a.Return? {
      ReturnKeepsRole(c, l);
    } else if Sends(a) {
      SendsKeepRole(c, a, l);
    }
  }

  lemma SendsKeepRole(c: Conn, a: Action, l: nat)
    requires Enabled(c, a) && Sends(a) && l < |c.links|
    ensures l < |Next(c, a).links|
    ensures Next(c, a).links[l].sender == c.links[l].sender && Next(c, a).links[l].session == c.links[l].session
  {
  }

  // ---------- A client that sends only inside a transaction ----------

  /** The client checks `transaction_is_declared` before every send. */
  predicate Disciplined(c: Conn, a: Action) {
    a.Send? && a.link < |c.links| ==> IsDeclared(c, c.links[a.link].session)
  }

  /** An unsettled outgoing message that fits the state of the transaction. */
  predicate Carries(t: Txn, d: Delivery) {
    match t.state
    case NoTransaction => true
    case Declaring => false
    case _ => d.local == Transactional(t.id, None)
  }

  ghost predicate OutgoingInv(c: Conn) {
    forall s, r :: s in c.txns && Exists(c.links, r) && Outgoing(c, s, r.link) && !At(c.links, r).settled ==>
      Carries(c.txns[s], At(c.links, r))
  }

  /** How one step can change a session's state and id. */
  ghost predicate Moves(c: Conn, s: nat, t: Txn, t': Txn) {
    || (t'.state == t.state && (t'.id == t.id || t.state == NoTransaction || t.state == Declaring))
    || t'.state == NoTransaction
    || (t'.state == Declaring && DeclareAccepted(c, s))
    || (t.state == Declaring && t'.state == Declared)
    || (t.state == Declared && t'.state == Discharging && t'.id == t.id)
  }

  lemma AnswerMoves(c: Conn, u: nat, ctl: Ref, answer: Answer, s: nat)
    requires CanAnswer(c, u, ctl) && s in c.txns && s in AnsweredOn(c, u, ctl, answer).txns
    ensures AnsweredOn(c, u, ctl, answer).txns[s].coordinator == c.txns[s].coordinator
    ensures Moves(c, s, c.txns[s], AnsweredOn(c, u, ctl, answer).txns[s])
  {
  }

  lemma ReturnMoves(w: World, s: nat)
    requires s in w.conn.txns && SessionInv(w, s) && s in ReturnOn(w.conn).txns
    ensures ReturnOn(w.conn).txns[s].coordinator == w.conn.txns[s].coordinator
    ensures Moves(w.conn, s, w.conn.txns[s], ReturnOn(w.conn).txns[s])
  {
  }

  lemma TxnMoves(w: World, a: Action, s: nat)
    requires Enabled(w.conn, a) && s in w.conn.txns && s in Next(w.conn, a).txns && SessionInv(w, s)
    ensures Next(w.conn, a).txns[s].coordinator == w.conn.txns[s].coordinator
    ensures Moves(w.conn, s, w.conn.txns[s], Next(w.conn, a).txns[s])
  {
    if a.Answered? {
      AnswerMoves(w.conn, a.session, a.ctl, a.answer, s);
    } else if a.Return? {
      ReturnMoves(w, s);
    }
  }

  lemma NewContextNeedsDeclare(c: Conn, a: Action, s: nat)
    requires Enabled(c, a) && s !in c.txns && s in Next(c, a).txns
    ensures DeclareAccepted(c, s)
  {
  }

  lemma UnsettledShows(c: Conn, s: nat, r: Ref)
    requires Exists(c.links, r) && Outgoing(c, s, r.link) && !At(c.links, r).settled
    ensures HasUnsettledOutgoing(c, s)
  {
    assert AnyUnsettled(c.links[r.link].deliveries);
  }

  lemma NothingUnsettledAtDeclare(c: Conn, s: nat, r: Ref)
    requires DeclareAccepted(c, s) && Exists(c.links, r) && Outgoing(c, s, r.link)
    ensures At(c.links, r).settled
  {
    if !At(c.links, r).settled {
      UnsettledShows(c, s, r);
    }
  }

  lemma OldMessagesCarry(w: World, a: Action, s: nat, r: Ref)
    requires Inv(w) && OutgoingInv(w.conn) && Enabled(w.conn, a)
    requires s in Next(w.conn, a).txns && Exists(w.conn.links, r) && Exists(Next(w.conn, a).links, r)
    requires Outgoing(Next(w.conn, a), s, r.link) && !At(Next(w.conn, a).links, r).settled
    ensures Carries(Next(w.conn, a).txns[s], At(Next(w.conn, a).links, r))
  {
    var c, c' := w.conn, Next(w.conn, a);
    LinksKeepRole(c, a, r.link);
    StepsAreStable(c, a);
    assert KeptOrSettled(c, c', r);
    if s in c.txns {
      assert SessionInv(w, s);
      TxnMoves(w, a, s);
      assert Outgoing(c, s, r.link);
      assert Carries(c.txns[s], At(c.links, r));
      if c'.txns[s].state == Declaring && DeclareAccepted(c, s) {
        NothingUnsettledAtDeclare(c, s, r);
      }
    } else {
      NewContextNeedsDeclare(c, a, s);
      NothingUnsettledAtDeclare(c, s, r);
    }
  }

  /** The coordinator link of one session is not an outgoing link of any. */
  lemma CoordinatorOfSession(w: World, u: nat, s: nat, l: nat)
    requires Inv(w) && u in w.conn.txns && w.conn.txns[u].coordinator == l
    ensures !Outgoing(w.conn, s, l)
  {
    assert SessionInv(w, u);
  }

  lemma NewMessagesCarry(w: World, a: Action, s: nat, r: Ref)
    requires Inv(w) && Enabled(w.conn, a) && Disciplined(w.conn, a)
    requires s in Next(w.conn, a).txns && !Exists(w.conn.links, r) && Exists(Next(w.conn, a).links, r)
    requires Outgoing(Next(w.conn, a), s, r.link)
    ensures Carries(Next(w.conn, a).txns[s], At(Next(w.conn, a).links, r))
  {
    NewDeliveries(w.conn, a, r);
    if !a.Send? {
      InvKept(w, a);
      CoordinatorOfSession(Step(w, a), a.session, s, r.link);
    }
  }

  lemma OutgoingKept(w: World, a: Action)
    requires Inv(w) && OutgoingInv(w.conn) && Enabled(w.conn, a) && Disciplined(w.conn, a)
    ensures OutgoingInv(Next(w.conn, a))
  {
    var c' := Next(w.conn, a);
    forall s, r | s in c'.txns && Exists(c'.links, r) && Outgoing(c', s, r.link) && !At(c'.links, r).settled
      ensures Carries(c'.txns[s], At(c'.links, r))
    {
      if Exists(w.conn.links, r) {
        OldMessagesCarry(w, a, s, r);
      } else {
        NewMessagesCarry(w, a, s, r);
      }
    }
  }

  ghost predicate DisciplinedRun(run: seq<World>, acts: seq<Action>) {
    IsRun(run, acts) && forall i {:trigger acts[i]} :: 0 <= i < |acts| ==> Disciplined(run[i].conn, acts[i])
  }

  lemma OutgoingRunStep(run: seq<World>, acts: seq<Action>, k: nat)
    requires IsRun(run, acts) && k < |acts| && Disciplined(run[k].conn, acts[k]) && OutgoingInv(run[k].conn)
    ensures OutgoingInv(run[k + 1].conn)
  {
    InvOnRuns(run, acts, k);
    RunStep(run, acts, k);
    OutgoingKept(run[k], acts[k]);
  }

  /**
   For every client that sends only inside a declared transaction: while the transaction
   is declared or discharging, every unsettled message on the session's own senders
   carries its id, and while it is being declared there is none.
   */
  lemma {:induction false} OutgoingCarryTheId(run: seq<World>, acts: seq<Action>, i: nat)
    requires DisciplinedRun(run, acts) && i < |run|
    ensures OutgoingInv(run[i].conn)
    decreases i
  {
    if i > 0 {
      OutgoingCarryTheId(run, acts, i - 1);
      OutgoingRunStep(run, acts, i - 1);
    }
  }

  /** The outcome that makes the library roll back the transaction of session `s`. */
  predicate Aborts(c: Conn, a: Action, s: nat) {
    && a.Answered? && a.session == s && s in c.txns && c.txns[s].state == Discharging
    && a.answer == if c.txns[s].failed then CtlAccepted else CtlRejected
  }

  predicate Commits(c: Conn, a: Action, s: nat) {
    && a.Answered? && a.session == s && s in c.txns && c.txns[s].state == Discharging
    && a.answer == CtlAccepted && !c.txns[s].failed
  }

  /**
   For such a client the abort sweep settles messages of this transaction only: whatever
   it settles on the session carried the transaction's id, everything outgoing on the
   session is settled afterwards with no disposition, and nothing else outgoing changes.
   */
  lemma AbortSettlesOnlyItsOwn(run: seq<World>, acts: seq<Action>, i: nat, s: nat, r: Ref)
    requires DisciplinedRun(run, acts) && i < |acts| && Aborts(run[i].conn, acts[i], s)
    requires Exists(run[i].conn.links, r) && run[i].conn.links[r.link].sender
    ensures Exists(run[i + 1].conn.links, r)
    ensures var c, d, d' := run[i].conn, At(run[i].conn.links, r), At(run[i + 1].conn.links, r);
      if Outgoing(c, s, r.link) && !d.settled
      then d.local == Transactional(c.txns[s].id, None) && d' == d.(local := NoState, settled := true)
      else d' == d
  {
    OutgoingCarryTheId(run, acts, i);
    var c := run[i].conn;
    RunStep(run, acts, i);
    AbortedSenders(c, s, acts[i].ctl, !c.txns[s].failed, r);
  }

  lemma AbortedSenders(c: Conn, s: nat, ctl: Ref, error: bool, r: Ref)
    requires s in c.txns && Exists(c.links, r) && c.links[r.link].sender
    ensures Exists(AbortOn(c, s, ctl, error).links, r)
    ensures At(AbortOn(c, s, ctl, error).links, r) ==
            if Outgoing(c, s, r.link) then SweepDelivery(SettleOutgoing, At(c.links, r)) else At(c.links, r)
  {
    var t := c.txns[s];
    var out := SweepLinks(SettleOutgoing, c.links, s, t.coordinator);
    assert out[r.link].sender;
  }

  // ---------- Provisional outcomes of incoming deliveries ----------

  /** An incoming delivery with a provisional outcome under the transaction `id`. */
  ghost predicate Provisional(c: Conn, r: Ref, id: Id, kind: Kind) {
    && Exists(c.links, r) && !c.links[r.link].sender
    && At(c.links, r).local == Transactional(id, Some(kind)) && !At(c.links, r).settled
  }

  /** The application neither disposes of `r` again nor settles it itself. */
  predicate LeavesAlone(a: Action, r: Ref) {
    !(a.Dispose? && a.ref == r) && !(a.Settle? && a.ref == r)
  }

  /** The sweep of incoming deliveries that an action makes on session `s`, if any. */
  function SweepOf(c: Conn, a: Action, s: nat): Option<Sweep> {
    if Commits(c, a, s) then Some(SettleIncoming)
    else if Aborts(c, a, s) && c.txns[s].autoModify then Some(ModifyIncoming)
    else None
  }

  /**
   A commit settles the unsettled incoming deliveries of its session as they stand, and
   leaves every other delivery of the connection, and the set of deliveries, unchanged.
   */
  lemma CommitExact(c: Conn, a: Action, s: nat, r: Ref)
    requires Enabled(c, a) && Commits(c, a, s)
    ensures Exists(Next(c, a).links, r) <==> Exists(c.links, r)
    ensures Exists(c.links, r) ==>
      var own := c.links[r.link].session == s && !c.links[r.link].sender;
      At(Next(c, a).links, r) == if own then At(c.links, r).(settled := true) else At(c.links, r)
  {
  }

  /**
   An abort settles the unsettled outgoing messages of its session, without a disposition,
   and with `auto_modify_on_abort` its unsettled incoming deliveries as modified and
   failed; control messages, settled deliveries and other sessions are unchanged.
   */
  lemma AbortExact(c: Conn, a: Action, s: nat, r: Ref)
    requires Enabled(c, a) && Aborts(c, a, s)
    ensures Exists(Next(c, a).links, r) <==> Exists(c.links, r)
    ensures Exists(c.links, r) ==>
      var d, own := At(c.links, r), c.links[r.link].session == s;
      At(Next(c, a).links, r) ==
        if !own || d.settled then d
        else if c.links[r.link].sender then
          (if r.link == c.txns[s].coordinator then d else d.(local := NoState, settled := true))
        else if c.txns[s].autoModify then d.(local := Final(Modified, true), settled := true)
        else d
  {
  }

  /** Disposing of a delivery while the transaction is declared makes its outcome provisional. */
  lemma DisposeIsProvisional(c: Conn, r: Ref, kind: Kind)
    requires Enabled(c, Dispose(r, kind)) && IsDeclared(c, c.links[r.link].session)
    ensures Provisional(Next(c, Dispose(r, kind)), r, c.txns[c.links[r.link].session].id, kind)
  {
  }

  lemma AnswerToReceiver(c: Conn, s: nat, ctl: Ref, answer: Answer, r: Ref)
    requires CanAnswer(c, s, ctl) && Exists(c.links, r) && !c.links[r.link].sender && ctl.link != r.link
    ensures var c', a := AnsweredOn(c, s, ctl, answer), Answered(s, ctl, answer);
      var u := c.links[r.link].session;
      && Exists(c'.links, r) && !c'.links[r.link].sender && c'.links[r.link].session == u
      && At(c'.links, r) == match SweepOf(c, a, u)
                            case None => At(c.links, r)
                            case Some(k) => SweepDelivery(k, At(c.links, r))
  {
  }

  /** Settling or updating another delivery leaves `r` alone. */
  lemma ReturnToReceiver(w: World, r: Ref)
    requires Inv(w) && Enabled(w.conn, Return) && Exists(w.conn.links, r) && !w.conn.links[r.link].sender
    ensures Exists(ReturnOn(w.conn).links, r) && At(ReturnOn(w.conn).links, r) == At(w.conn.links, r)
  {
    var p := w.conn.phase;
    if !AboutTracker(p) {
      assert SessionInv(w, p.session);
    }
  }

  lemma OtherStepsToReceiver(w: World, a: Action, r: Ref)
    requires Inv(w) && Enabled(w.conn, a) && !a.Answered? && LeavesAlone(a, r)
    requires Exists(w.conn.links, r) && !w.conn.links[r.link].sender
    ensures Exists(Next(w.conn, a).links, r) && At(Next(w.conn, a).links, r) == At(w.conn.links, r)
  {
    if a.Return? {
      ReturnToReceiver(w, r);
    } else if Sends(a) {
      SendsToReceiver(w.conn, a, r);
    }
  }

  lemma SendsToReceiver(c: Conn, a: Action, r: Ref)
    requires Enabled(c, a) && Sends(a) && Exists(c.links, r)
    ensures Exists(Next(c, a).links, r) && At(Next(c, a).links, r) == At(c.links, r)
  {
  }

  /** What one step does to an incoming delivery the application leaves alone. */
  lemma StepToReceiver(w: World, a: Action, r: Ref)
    requires Inv(w) && Enabled(w.conn, a) && LeavesAlone(a, r)
    requires Exists(w.conn.links, r) && !w.conn.links[r.link].sender
    ensures Exists(Next(w.conn, a).links, r) && !Next(w.conn, a).links[r.link].sender
    ensures Next(w.conn, a).links[r.link].session == w.conn.links[r.link].session
    ensures At(Next(w.conn, a).links, r) == match SweepOf(w.conn, a, w.conn.links[r.link].session)
                                            case None => At(w.conn.links, r)
                                            case Some(k) => SweepDelivery(k, At(w.conn.links, r))
  {
    LinksKeepRole(w.conn, a, r.link);
    if a.Answered? {
      assert SessionInv(w, a.session);
      AnswerToReceiver(w.conn, a.session, a.ctl, a.answer, r);
    } else {
      OtherStepsToReceiver(w, a, r);
    }
  }

  /** The first sweep of session `s` among the actions from `i` to `n` of a run. */
  ghost function FirstSweep(run: seq<World>, acts: seq<Action>, i: nat, n: nat, s: nat): Option<Sweep>
    requires IsRun(run, acts) && i <= n <= |acts|
    decreases n - i
  {
    if i == n then None
    else if SweepOf(run[i].conn, acts[i], s).Some? then SweepOf(run[i].conn, acts[i], s)
    else FirstSweep(run, acts, i + 1, n, s)
  }

  /** What a sweep, or none, leaves of a delivery with a provisional outcome. */
  ghost predicate EndsAs(d: Delivery, sweep: Option<Sweep>, id: Id, kind: Kind) {
    match sweep
    case None => !d.settled && d.local == Transactional(id, Some(kind))
    case Some(SettleIncoming) => d.settled && d.local == Transactional(id, Some(kind))
    case Some(_) => d.settled && d.local == Final(Modified, true)
  }

  lemma RunStepToReceiver(run: seq<World>, acts: seq<Action>, i: nat, r: Ref)
    requires IsRun(run, acts) && i < |acts| && LeavesAlone(acts[i], r)
    requires Exists(run[i].conn.links, r) && !run[i].conn.links[r.link].sender
    ensures var c, c' := run[i].conn, run[i + 1].conn;
      var u := c.links[r.link].session;
      && Exists(c'.links, r) && !c'.links[r.link].sender && c'.links[r.link].session == u
      && At(c'.links, r) == match SweepOf(c, acts[i], u)
                            case None => At(c.links, r)
                            case Some(k) => SweepDelivery(k, At(c.links, r))
  {
    InvOnRuns(run, acts, i);
    RunStep(run, acts, i);
    StepToReceiver(run[i], acts[i], r);
  }

  /**
   In every run, an incoming delivery given outcome `kind` inside a transaction, and then
   left alone by the application, stays unsettled with that provisional outcome until its
   session's first sweep: a commit settles it still carrying `kind`, a rolled back
   transaction settles it as modified with failed set.
   */
  lemma {:induction false} ProvisionalFate(run: seq<World>, acts: seq<Action>, i: nat, n: nat,
      r: Ref, id: Id, kind: Kind)
    requires IsRun(run, acts) && i <= n <= |acts|
    requires Provisional(run[i].conn, r, id, kind)
    requires forall k :: i <= k < n ==> LeavesAlone(acts[k], r)
    ensures Exists(run[n].conn.links, r)
    ensures EndsAs(At(run[n].conn.links, r), FirstSweep(run, acts, i, n, run[i].conn.links[r.link].session), id, kind)
    decreases n - i
  {
    if i < n {
      var s := run[i].conn.links[r.link].session;
      RunStepToReceiver(run, acts, i, r);
      if SweepOf(run[i].conn, acts[i], s).None? {
        ProvisionalFate(run, acts, i + 1, n, r, id, kind);
      } else {
        SettledStays(run, acts, i + 1, n, r);
      }
    }
  }

  /** A settled incoming delivery that is left alone does not change again. */
  lemma {:induction false} SettledStays(run: seq<World>, acts: seq<Action>, i: nat, n: nat, r: Ref)
    requires IsRun(run, acts) && i <= n <= |acts|
    requires Exists(run[i].conn.links, r) && !run[i].conn.links[r.link].sender && At(run[i].conn.links, r).settled
    requires forall k {:trigger acts[k]} :: i <= k < n ==> LeavesAlone(acts[k], r)
    ensures Exists(run[n].conn.links, r) && !run[n].conn.links[r.link].sender
    ensures At(run[n].conn.links, r) == At(run[i].conn.links, r)
    decreases n - i
  {
    if i < n {
      SettledStays(run, acts, i, n - 1, r);
      RunStepToReceiver(run, acts, n - 1, r);
    }
  }
}
