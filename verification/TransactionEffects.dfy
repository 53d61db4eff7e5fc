/**
 What each call and each event does to the deliveries and the contexts, and to nothing
 else, and what follows over whole runs: outcomes given outside a transaction, the choice
 to modify on abort, the callbacks about control messages, and settled trackers.
 */
module TransactionEffects {
  import opened Common
  import opened Transactions
  import opened TransactionRuns
  import opened TransactionDeliveries

  /** The links have the same properties and as many deliveries, and every delivery but `r` is the same. */
  ghost predicate SameElsewhere(links: seq<Link>, links': seq<Link>, r: Ref) {
    && |links'| == |links|
    && (forall l :: 0 <= l < |links| ==> links'[l].(deliveries := links[l].deliveries) == links[l])
    && (forall q :: Exists(links', q) <==> Exists(links, q))
    && (forall q :: Exists(links, q) && q != r ==> At(links', q) == At(links, q))
  }

  /** One delivery has been added at the end of link `l`, and nothing else has changed. */
  ghost predicate AddsOne(links: seq<Link>, links': seq<Link>, l: nat)
    requires l < |links|
  {
    && |links'| == |links|
    && (forall k :: 0 <= k < |links| ==> links'[k].(deliveries := links[k].deliveries) == links[k])
    && (forall k :: 0 <= k < |links| && k != l ==> links'[k] == links[k])
    && |links'[l].deliveries| == |links[l].deliveries| + 1
    && (forall j :: 0 <= j < |links[l].deliveries| ==> links'[l].deliveries[j] == links[l].deliveries[j])
  }

  // ---------- Outcomes of incoming deliveries ----------

  /**
   An outcome given outside a declared transaction is final: the delivery is settled with
   the very outcome that was given, failed only if it was modified, and nothing else changes.
   */
  lemma DisposeIsFinal(c: Conn, r: Ref, kind: Kind)
    requires Enabled(c, Dispose(r, kind)) && !IsDeclared(c, c.links[r.link].session)
    ensures var c', d := Next(c, Dispose(r, kind)), At(c.links, r);
      && c'.txns == c.txns && c'.phase == c.phase && SameElsewhere(c.links, c'.links, r)
      && var d' := At(c'.links, r);
      && d'.settled && d'.local.Final? && d'.local.kind == kind
      && (d'.local.failed ==> kind == Modified)
      && (d.local == NoState ==> (d'.local.failed <==> kind == Modified))
      && (d.local.Transactional? ==> !d'.local.failed)
      && d'.remote == d.remote && d'.remoteSettled == d.remoteSettled
  {
  }

  /** In every run that outcome is the delivery's for the rest of the run, through any transactions. */
  lemma FinalOutcomeStays(run: seq<World>, acts: seq<Action>, i: nat, n: nat, r: Ref, kind: Kind)
    requires IsRun(run, acts) && i < n <= |acts| && acts[i] == Dispose(r, kind)
    requires r.link < |run[i].conn.links| && !IsDeclared(run[i].conn, run[i].conn.links[r.link].session)
    requires forall k {:trigger acts[k]} :: i < k < n ==> LeavesAlone(acts[k], r)
    ensures Exists(run[n].conn.links, r)
    ensures At(run[n].conn.links, r).settled
    ensures At(run[n].conn.links, r).local.Final? && At(run[n].conn.links, r).local.kind == kind
  {
    RunStep(run, acts, i);
    DisposeIsFinal(run[i].conn, r, kind);
    SettledStays(run, acts, i + 1, n, r);
  }

  /** An outcome given in a declared transaction changes nothing but that delivery, which stays unsettled. */
  lemma ProvisionalElsewhere(c: Conn, r: Ref, kind: Kind)
    requires Enabled(c, Dispose(r, kind)) && IsDeclared(c, c.links[r.link].session)
    ensures var c', d := Next(c, Dispose(r, kind)), At(c.links, r);
      && c'.txns == c.txns && c'.phase == c.phase && SameElsewhere(c.links, c'.links, r)
      && !At(c'.links, r).settled
      && At(c'.links, r).local == Transactional(c.txns[c.links[r.link].session].id, Some(kind))
  {
  }

  // ---------- Sending, receiving, settling ----------

  /**
   A message sent is added to its link, settled from the start exactly on a pre-settled
   link, and enlisted under the current id exactly while a transaction is declared.
   */
  lemma SendEffect(c: Conn, l: nat)
    requires Enabled(c, Send(l))
    ensures var c' := Next(c, Send(l));
      && c'.txns == c.txns && c'.phase == c.phase && AddsOne(c.links, c'.links, l)
      && var d, s := c'.links[l].deliveries[|c.links[l].deliveries|], c.links[l].session;
      && (d.settled <==> c.links[l].presettled)
      && (IsDeclared(c, s) <==> d.local.Transactional?)
      && (IsDeclared(c, s) ==> d.local.id == c.txns[s].id && d.local.outcome == None)
      && (!IsDeclared(c, s) ==> d.local == NoState)
      && d.remote == NoState && !d.remoteSettled
  {
  }

  /** A delivery that arrives has no state and is not settled. */
  lemma ArriveEffect(c: Conn, l: nat)
    requires Enabled(c, Arrive(l))
    ensures var c' := Next(c, Arrive(l));
      && c'.txns == c.txns && c'.phase == c.phase && AddsOne(c.links, c'.links, l)
      && var d := c'.links[l].deliveries[|c.links[l].deliveries|];
      !d.settled && d.local == NoState && d.remote == NoState && !d.remoteSettled
  {
  }

  /** Settling keeps the dispositions of the delivery, and touches no other. */
  lemma SettleEffect(c: Conn, r: Ref)
    requires Enabled(c, Settle(r))
    ensures var c', d := Next(c, Settle(r)), At(c.links, r);
      && c'.txns == c.txns && c'.phase == c.phase && SameElsewhere(c.links, c'.links, r)
      && var d' := At(c'.links, r);
      d'.settled && d'.local == d.local && d'.remote == d.remote && d'.remoteSettled == d.remoteSettled
  {
  }

  /** A link opened has the properties asked for and no deliveries, and the other links stay. */
  lemma OpenLinkEffect(c: Conn, s: nat, sender: bool, presettled: bool, autoSettle: bool)
    ensures var c' := Next(c, OpenLink(s, sender, presettled, autoSettle));
      && c'.txns == c.txns && c'.phase == c.phase
      && |c'.links| == |c.links| + 1 && (forall l :: 0 <= l < |c.links| ==> c'.links[l] == c.links[l])
      && var k := c'.links[|c.links|];
      && k.session == s && (k.sender <==> sender) && (k.presettled <==> presettled)
      && (k.autoSettle <==> autoSettle) && k.deliveries == []
  {
  }

  // ---------- Modifying on abort ----------

  /** A declare that is refused changes nothing; one that is accepted changes only its session's context and links. */
  lemma DeclareEffect(c: Conn, s: nat, autoModify: Option<bool>)
    requires s in c.txns ==> c.txns[s].coordinator < |c.links|
    ensures var c' := Next(c, Declare(s, autoModify));
      && (!DeclareAccepted(c, s) ==> c' == c)
      && (DeclareAccepted(c, s) ==>
            && s in c'.txns && c'.txns[s].state == Declaring && c'.phase == c.phase
            && (forall u :: u in c'.txns && u != s ==> u in c.txns && c'.txns[u] == c.txns[u])
            && (forall u :: u in c.txns ==> u in c'.txns)
            && (forall l :: 0 <= l < |c.links| && l != c'.txns[s].coordinator ==> c'.links[l] == c.links[l])
            && (c'.txns[s].autoModify <==>
                  if autoModify.Some? then autoModify.value else s in c.txns ==> c.txns[s].autoModify))
  {
  }

  /** The conversation of a session, if it has one. */
  ghost function SessionStage(w: World, s: nat): Stage
    requires s in w.conn.txns && w.conn.txns[s].coordinator in w.talk
  {
    StageOf(w.talk[w.conn.txns[s].coordinator])
  }

  /** An unsettled message on a sender of the session, other than a control message. */
  ghost predicate UnsettledMessage(c: Conn, s: nat, r: Ref) {
    && Exists(c.links, r) && c.links[r.link].sender && c.links[r.link].session == s
    && !(s in c.txns && c.txns[s].coordinator == r.link) && !At(c.links, r).settled
  }

  lemma UnsettledIff(c: Conn, s: nat)
    ensures HasUnsettledOutgoing(c, s) <==> exists r :: UnsettledMessage(c, s, r)
  {
    if HasUnsettledOutgoing(c, s) {
      var l :| 0 <= l < |c.links| && Outgoing(c, s, l) && AnyUnsettled(c.links[l].deliveries);
      var j :| 0 <= j < |c.links[l].deliveries| && !c.links[l].deliveries[j].settled;
      assert UnsettledMessage(c, s, Ref(l, j));
    }
    if r :| UnsettledMessage(c, s, r) {
      assert Outgoing(c, s, r.link) && AnyUnsettled(c.links[r.link].deliveries);
    }
  }

  /**
   In every run a declare is accepted if and only if the conversation is at rest, or there
   is none yet, and no message sent on the session is unsettled; a discharge if and only if
   the conversation has a transaction that is active. A call that is refused changes nothing.
   */
  lemma CallsAcceptedIff(run: seq<World>, acts: seq<Action>, i: nat)
    requires IsRun(run, acts) && i < |acts| && (acts[i].Declare? || acts[i].Discharge?)
    ensures var w, s := run[i], acts[i].session;
      && (s in w.conn.txns ==> w.conn.txns[s].coordinator in w.talk)
      && var ready := s in w.conn.txns ==> SessionStage(w, s) == AtRest;
      && (acts[i].Declare? ==>
            (run[i + 1].talk != w.talk <==> ready && !exists r :: UnsettledMessage(w.conn, s, r)))
      && (acts[i].Discharge? ==>
            (run[i + 1].talk != w.talk <==> s in w.conn.txns && SessionStage(w, s).Active?))
      && (run[i + 1].talk == w.talk ==> run[i + 1].conn == w.conn)
  {
    var w, s := run[i], acts[i].session;
    RunStep(run, acts, i);
    InvOnRuns(run, acts, i);
    assert s in w.conn.txns ==> SessionInv(w, s);
    UnsettledIff(w.conn, s);
    SaysSomething(w, acts[i]);
  }

  lemma SaysSomething(w: World, a: Action)
    requires Enabled(w.conn, a) && (a.Declare? || a.Discharge?)
    ensures a.Declare? ==> (TalkAfter(w, a) != w.talk <==> DeclareAccepted(w.conn, a.session))
    ensures a.Discharge? ==> (TalkAfter(w, a) != w.talk <==> IsDeclared(w.conn, a.session))
  {
    forall l: nat, m: Msg ensures Said(w.talk, l, m) != w.talk {
      assert l in w.talk ==> |Said(w.talk, l, m)[l]| == |w.talk[l]| + 1;
    }
  }

  /**
   Whether the application has asked, by the first n steps, that an abort modify incoming
   deliveries: the last declare that says so decides, and a new context starts with yes.
   */
  ghost function ModifyAsked(run: seq<World>, acts: seq<Action>, s: nat, n: nat): bool
    requires IsRun(run, acts) && n <= |acts|
  {
    if n == 0 then true
    else
      var c, a := run[n - 1].conn, acts[n - 1];
      if a.Declare? && a.session == s && DeclareAccepted(c, s) && (a.autoModify.Some? || s !in c.txns)
      then a.autoModify.GetOr(true)
      else ModifyAsked(run, acts, s, n - 1)
  }

  /** Only an accepted declare changes a session's choice. */
  lemma ChoiceKept(c: Conn, a: Action, s: nat)
    requires Enabled(c, a) && s in Next(c, a).txns && !(a.Declare? && a.session == s)
    ensures s in c.txns && Next(c, a).txns[s].autoModify == c.txns[s].autoModify
  {
    if a.Answered? {
      ChoiceAfterAnswer(c, a.session, a.ctl, a.answer, s);
    } else if a.Return? {
      ChoiceAfterReturn(c, s);
    }
  }

  lemma ChoiceAfterAnswer(c: Conn, u: nat, ctl: Ref, answer: Answer, s: nat)
    requires CanAnswer(c, u, ctl) && s in AnsweredOn(c, u, ctl, answer).txns
    ensures s in c.txns && AnsweredOn(c, u, ctl, answer).txns[s].autoModify == c.txns[s].autoModify
  {
  }

  lemma ChoiceAfterReturn(c: Conn, s: nat)
    requires s in ReturnOn(c).txns
    ensures s in c.txns && ReturnOn(c).txns[s].autoModify == c.txns[s].autoModify
  {
  }

  lemma {:induction false} ModifyAskedOnRuns(run: seq<World>, acts: seq<Action>, s: nat, n: nat)
    requires IsRun(run, acts) && n <= |acts|
    ensures s in run[n].conn.txns ==> run[n].conn.txns[s].autoModify == ModifyAsked(run, acts, s, n)
    decreases n
  {
    if n > 0 {
      var c, a := run[n - 1].conn, acts[n - 1];
      ModifyAskedOnRuns(run, acts, s, n - 1);
      RunStep(run, acts, n - 1);
      if a.Declare? && a.session == s {
        InvOnRuns(run, acts, n - 1);
        assert s in c.txns ==> SessionInv(run[n - 1], s);
        DeclareEffect(c, s, a.autoModify);
      } else if s in run[n].conn.txns {
        ChoiceKept(c, a, s);
      }
    }
  }

  /**
   In every run an abort settles an unsettled incoming delivery of its session, as modified
   and failed, if and only if the application asked for that, by the last declare that said.
   */
  lemma AbortModifiesIff(run: seq<World>, acts: seq<Action>, i: nat, s: nat, r: Ref)
    requires IsRun(run, acts) && i < |acts| && Aborts(run[i].conn, acts[i], s)
    requires Exists(run[i].conn.links, r) && !run[i].conn.links[r.link].sender
    requires run[i].conn.links[r.link].session == s && !At(run[i].conn.links, r).settled
    ensures Exists(run[i + 1].conn.links, r)
    ensures var d, d' := At(run[i].conn.links, r), At(run[i + 1].conn.links, r);
      if ModifyAsked(run, acts, s, i) then d'.settled && d'.local == Final(Modified, true) else d' == d
  {
    RunStep(run, acts, i);
    ModifyAskedOnRuns(run, acts, s, i);
    AbortExact(run[i].conn, acts[i], s, r);
  }

  // ---------- The callbacks about control messages ----------

  /** What a conversation waits for, by its last message. */
  lemma LastMessage(talk: seq<Msg>)
    requires Awaiting(StageOf(talk))
    ensures talk != []
    ensures StageOf(talk).AwaitDeclared? ==> talk[|talk| - 1] == SentDeclare
    ensures StageOf(talk).AwaitDischarged? ==>
      talk[|talk| - 1] == SentDischarge(StageOf(talk).id, StageOf(talk).failed)
  {
  }

  /** The callback an outcome leads to, given the control message it answers. */
  function CallbackFor(sent: Msg, answer: Answer, s: nat, ctl: Ref, recorded: set<Ref>): Phase {
    match (sent, answer)
    case (SentDeclare, DeclaredWith(_)) => InDeclared(s, ctl)
    case (SentDeclare, CtlRejected) => InError(s, ctl)
    case (SentDischarge(_, true), CtlAccepted) => InAborted(s, ctl)
    case (SentDischarge(_, false), CtlRejected) => InAborted(s, ctl)
    case (SentDischarge(_, false), CtlAccepted) => Reporting(s, ctl, recorded)
    case _ => Idle
  }

  /** The outcome is an answer that the protocol does not provide for to this control message. */
  predicate WrongAnswer(sent: Msg, answer: Answer) {
    match answer
    case DeclaredWith(_) => sent != SentDeclare
    case CtlAccepted => sent == SentDeclare
    case CtlRejected => sent.SentDischarge? && sent.failed
    case CtlOther => false
  }

  /** The library's next callback, and what it has noted for it. */
  ghost predicate CallsBack(c: Conn, s: nat, ctl: Ref, answer: Answer, sent: Msg, c': Conn)
    requires s in c.txns
  {
    && c'.phase == CallbackFor(sent, answer, s, ctl, c.txns[s].provisional)
    && (WrongAnswer(sent, answer) <==> s !in c'.txns)
    && (c'.phase.InDeclared? ==>
          s in c'.txns && answer.DeclaredWith? && c'.txns[s].id == answer.id && c'.txns[s].state == Declared)
    && (c'.phase.InAborted? ==> s in c'.txns && sent.SentDischarge? && (c'.txns[s].error <==> !sent.failed))
    && (c'.phase.InError? ==> s in c'.txns && c'.txns[s].error)
    && (c'.phase.Idle? ==> Exists(c'.links, ctl) && At(c'.links, ctl).settled)
  }

  lemma AnswerCallsBack(c: Conn, s: nat, ctl: Ref, answer: Answer, sent: Msg)
    requires CanAnswer(c, s, ctl)
    requires (c.txns[s].state == Declaring && sent == SentDeclare)
          || (c.txns[s].state == Discharging && sent.SentDischarge? && sent.failed == c.txns[s].failed)
    ensures CallsBack(c, s, ctl, answer, sent, AnsweredOn(c, s, ctl, answer))
  {
  }

  /**
   In every run the callback for an outcome is the one for the control message sent last:
   declared with the id received, committed only if a commit was asked for and accepted,
   aborted without an error if an abort was, aborted with an error if a commit was refused.
   Any other outcome but one that is ignored ends the conversation, and the context is gone.
   */
  lemma CallbackFollowsTheTalk(run: seq<World>, acts: seq<Action>, i: nat)
    requires IsRun(run, acts) && i < |acts| && acts[i].Answered?
    ensures var a, c := acts[i], run[i].conn;
      && a.ctl.link in run[i].talk && run[i].talk[a.ctl.link] != [] && a.session in c.txns
      && var talk := run[i].talk[a.ctl.link];
      CallsBack(c, a.session, a.ctl, a.answer, talk[|talk| - 1], run[i + 1].conn)
  {
    RunStep(run, acts, i);
    AwaitedMessage(run, acts, i);
    var talk := run[i].talk[acts[i].ctl.link];
    AnswerCallsBack(run[i].conn, acts[i].session, acts[i].ctl, acts[i].answer, talk[|talk| - 1]);
  }

  lemma AwaitedMessage(run: seq<World>, acts: seq<Action>, i: nat)
    requires IsRun(run, acts) && i < |acts| && acts[i].Answered?
    ensures acts[i].session in run[i].conn.txns
    ensures acts[i].ctl.link in run[i].talk && run[i].talk[acts[i].ctl.link] != []
    ensures var t, talk := run[i].conn.txns[acts[i].session], run[i].talk[acts[i].ctl.link];
      var sent := talk[|talk| - 1];
      || (t.state == Declaring && sent == SentDeclare)
      || (t.state == Discharging && sent.SentDischarge? && sent.failed == t.failed)
  {
    RunStep(run, acts, i);
    InvOnRuns(run, acts, i);
    var s := acts[i].session;
    assert SessionInv(run[i], s);
    OutcomeIsAwaited(run[i], s, acts[i].ctl);
    LastMessage(run[i].talk[acts[i].ctl.link]);
  }

  // ---------- Trackers ----------

  /** Whether the peer's disposition of a tracker is recorded: it names the current transaction of its session. */
  predicate IsRecorded(c: Conn, r: Ref, remote: Disposition)
    requires r.link < |c.links|
  {
    remote.Transactional? && c.links[r.link].session in c.txns && c.txns[c.links[r.link].session].id == remote.id
  }

  /**
   The peer's disposition is kept with the delivery, whose own state stays; the tracker is
   recorded with its session exactly if the disposition names the current transaction.
   */
  lemma TrackerUpdateEffect(c: Conn, r: Ref, remote: Disposition, remoteSettled: bool)
    requires Enabled(c, TrackerUpdate(r, remote, remoteSettled))
    ensures var c', d := Next(c, TrackerUpdate(r, remote, remoteSettled)), At(c.links, r);
      && SameElsewhere(c.links, c'.links, r) && c'.phase == InTracker(r)
      && var d', s := At(c'.links, r), c.links[r.link].session;
      && d'.remote == remote && (d'.remoteSettled <==> remoteSettled)
      && d'.local == d.local && (d'.settled <==> d.settled)
      && c'.txns.Keys == c.txns.Keys
      && (forall u :: u in c.txns && u != s ==> c'.txns[u] == c.txns[u])
      && (s in c.txns ==>
            && c'.txns[s].provisional == c.txns[s].provisional + (if IsRecorded(c, r, remote) then {r} else {})
            && SameTxn(c.txns[s], c'.txns[s]))
  {
  }

  /** The peer has settled, and no discharge of the tracker's session is under way. */
  predicate Announces(c: Conn, r: Ref)
    requires Exists(c.links, r)
  {
    var s := c.links[r.link].session;
    At(c.links, r).remoteSettled && !(s in c.txns && c.txns[s].state == Discharging)
  }

  /** After the callbacks about an outcome, the settlement is announced or nothing more happens. */
  lemma AfterOutcome(c: Conn, r: Ref)
    requires c.phase == InTracker(r) && Exists(c.links, r)
    ensures var c' := Next(c, Return);
      c'.links == c.links && c'.txns == c.txns && c'.phase == if Announces(c, r) then InTrackerSettle(r) else Idle
  {
  }

  /** After `on_tracker_settle` the tracker is settled exactly if it was, or its link settles by itself. */
  lemma AfterAnnouncement(c: Conn, r: Ref)
    requires c.phase == InTrackerSettle(r) && Exists(c.links, r)
    ensures var c' := Next(c, Return);
      && c'.txns == c.txns && c'.phase == Idle && SameElsewhere(c.links, c'.links, r)
      && (At(c'.links, r).settled <==> At(c.links, r).settled || c.links[r.link].autoSettle)
      && At(c'.links, r).local == At(c.links, r).local && At(c'.links, r).remote == At(c.links, r).remote
  {
  }

  /** A report settles its tracker exactly if the peer has settled it and its link settles by itself. */
  lemma ReportEffect(c: Conn, r: Ref)
    requires Enabled(c, Report(r)) && Exists(c.links, r)
    ensures var c' := Next(c, Report(r));
      && c'.txns == c.txns && SameElsewhere(c.links, c'.links, r)
      && c'.phase == c.phase.(todo := c.phase.todo - {r})
      && (At(c'.links, r).settled <==>
            At(c.links, r).settled || (At(c.links, r).remoteSettled && c.links[r.link].autoSettle))
      && At(c'.links, r).local == At(c.links, r).local && At(c'.links, r).remote == At(c.links, r).remote
  {
  }

  lemma {:induction false} SentStaysSettled(run: seq<World>, acts: seq<Action>, i: nat, n: nat, r: Ref)
    requires IsRun(run, acts) && i <= n <= |acts|
    requires Exists(run[i].conn.links, r) && run[i].conn.links[r.link].sender && At(run[i].conn.links, r).settled
    ensures Exists(run[n].conn.links, r) && run[n].conn.links[r.link].sender && At(run[n].conn.links, r).settled
    decreases n - i
  {
    if i < n {
      SentStaysSettled(run, acts, i, n - 1, r);
      RunStep(run, acts, n - 1);
      StepsAreStable(run[n - 1].conn, acts[n - 1]);
      assert KeptOrSettled(run[n - 1].conn, run[n].conn, r);
    }
  }

  /**
   In every run a tracker that a commit reports after the peer has settled it, on a link that
   settles by itself, is settled from then on.
   */
  lemma ReportedIsSettled(run: seq<World>, acts: seq<Action>, i: nat, n: nat, r: Ref)
    requires IsRun(run, acts) && i < n <= |acts| && acts[i] == Report(r)
    ensures Exists(run[i].conn.links, r)
    ensures At(run[i].conn.links, r).remoteSettled && run[i].conn.links[r.link].autoSettle ==>
      Exists(run[n].conn.links, r) && At(run[n].conn.links, r).settled
  {
    RunStep(run, acts, i);
    assert Tracked(run[i].conn, r) by {
      InvOnRuns(run, acts, i);
    }
    ReportEffect(run[i].conn, r);
    if At(run[i].conn.links, r).remoteSettled && run[i].conn.links[r.link].autoSettle {
      SentStaysSettled(run, acts, i + 1, n, r);
    }
  }
}
