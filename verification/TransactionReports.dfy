/**
 The outgoing trackers a commit reports: which they are, in every run, and when they are
 the trackers of the committed transaction.
 */
module TransactionReports {
  import opened Common
  import opened Transactions
  import opened TransactionRuns
  import opened TransactionDeliveries

  function Trackers(ms: set<Mark>): set<Ref> {
    set m | m in ms :: m.tracker
  }

  /** The trackers recorded under the transaction `id`. */
  function TrackersUnder(ms: set<Mark>, id: Id): set<Ref> {
    set m | m in ms && m.id == id :: m.tracker
  }

  /** A session's provisional outcomes are what it has recorded since its previous commit. */
  ghost predicate MarksInv(w: World) {
    forall s :: s in w.conn.txns ==> w.conn.txns[s].provisional == Trackers(MarksOf(w, s))
  }

  lemma MarksAfterUpdate(w: World, r: Ref, remote: Disposition, remoteSettled: bool)
    requires MarksInv(w) && Enabled(w.conn, TrackerUpdate(r, remote, remoteSettled))
    ensures MarksInv(Step(w, TrackerUpdate(r, remote, remoteSettled)))
  {
    var w' := Step(w, TrackerUpdate(r, remote, remoteSettled));
    forall s | s in w'.conn.txns ensures w'.conn.txns[s].provisional == Trackers(MarksOf(w', s)) {
      if MarksOf(w', s) != MarksOf(w, s) {
        assert Trackers(MarksOf(w, s) + {Mark(r, remote.id)}) == Trackers(MarksOf(w, s)) + {r};
      }
    }
  }

  predicate Plain(a: Action) {
    a.OpenLink? || a.Send? || a.Dispose? || a.Settle? || a.Arrive? || a.Report?
  }

  lemma PlainActions(w: World, a: Action)
    requires Enabled(w.conn, a) && Plain(a)
    ensures var w' := Step(w, a);
      && w'.conn.txns == w.conn.txns && w'.marks == w.marks
      && (w'.conn.phase == w.conn.phase || (w.conn.phase.Reporting? && w'.conn.phase.Reporting?))
  {
  }

  lemma AnswerKeepsMarks(c: Conn, u: nat, ctl: Ref, answer: Answer, s: nat)
    requires CanAnswer(c, u, ctl) && s in AnsweredOn(c, u, ctl, answer).txns
    ensures s in c.txns && AnsweredOn(c, u, ctl, answer).txns[s].provisional == c.txns[s].provisional
  {
  }

  /** The return from the last report forgets what was recorded; no other return touches it. */
  lemma ReturnAndMarks(w: World, s: nat)
    requires Enabled(w.conn, Return) && s in ReturnOn(w.conn).txns
    ensures s in w.conn.txns
    ensures var cleared := w.conn.phase.Reporting? && w.conn.phase.session == s;
      && ReturnOn(w.conn).txns[s].provisional == (if cleared then {} else w.conn.txns[s].provisional)
      && MarksOf(Step(w, Return), s) == (if cleared then {} else MarksOf(w, s))
  {
  }

  lemma MarksAfterReturn(w: World)
    requires MarksInv(w) && Enabled(w.conn, Return)
    ensures MarksInv(Step(w, Return))
  {
    forall s | s in ReturnOn(w.conn).txns
      ensures ReturnOn(w.conn).txns[s].provisional == Trackers(MarksOf(Step(w, Return), s))
    {
      ReturnAndMarks(w, s);
    }
  }

  lemma MarksAfterDischarge(w: World, s: nat, failed: bool)
    requires MarksInv(w)
    ensures MarksInv(Step(w, Discharge(s, failed)))
  {
  }

  lemma MarksKept(w: World, a: Action)
    requires MarksInv(w) && Enabled(w.conn, a)
    ensures MarksInv(Step(w, a))
  {
    match a
    case TrackerUpdate(r, remote, remoteSettled) => MarksAfterUpdate(w, r, remote, remoteSettled);
    case Answered(u, ctl, answer) =>
      forall s | s in Step(w, a).conn.txns
        ensures Step(w, a).conn.txns[s].provisional == Trackers(MarksOf(Step(w, a), s))
      {
        AnswerKeepsMarks(w.conn, u, ctl, answer, s);
      }
    case Declare(s, autoModify) => MarksAfterDeclare(w, s, autoModify);
    case Discharge(s, failed) => MarksAfterDischarge(w, s, failed);
    case Return => MarksAfterReturn(w);
    case _ => PlainActions(w, a);
  }

  lemma MarksAfterDeclare(w: World, s: nat, autoModify: Option<bool>)
    requires MarksInv(w)
    ensures MarksInv(Step(w, Declare(s, autoModify)))
  {
    var w' := Step(w, Declare(s, autoModify));
    forall u | u in w'.conn.txns ensures w'.conn.txns[u].provisional == Trackers(MarksOf(w', u)) {
      if u in w.conn.txns {
        assert w'.conn.txns[u].provisional == w.conn.txns[u].provisional;
      }
    }
  }

  lemma {:induction false} MarksOnRuns(run: seq<World>, acts: seq<Action>, i: nat)
    requires IsRun(run, acts) && i < |run|
    ensures MarksInv(run[i])
    decreases i
  {
    if i > 0 {
      MarksOnRuns(run, acts, i - 1);
      RunStep(run, acts, i - 1);
      MarksKept(run[i - 1], acts[i - 1]);
    }
  }

  // ---------- Each reported once ----------

  /** The trackers reported by the actions from `i` to `n`, in order. */
  function Reported(acts: seq<Action>, i: nat, n: nat): seq<Ref>
    requires i <= n <= |acts|
    decreases n - i
  {
    if i == n then [] else Reported(acts, i, n - 1) + (if acts[n - 1].Report? then [acts[n - 1].tracker] else [])
  }

  ghost predicate NoRepeats(s: seq<Ref>) {
    forall i, j :: 0 <= i < j < |s| ==> s[i] != s[j]
  }

  /** While the reports of a commit last, the reported and the remaining trackers make up the set. */
  lemma ReportStep(w: World, a: Action)
    requires Enabled(w.conn, a) && w.conn.phase.Reporting? && Step(w, a).conn.phase.Reporting?
    ensures Step(w, a).conn.phase.todo == if a.Report? then w.conn.phase.todo - {a.tracker} else w.conn.phase.todo
    ensures a.Report? ==> a.tracker in w.conn.phase.todo
  {
  }

  lemma {:induction false} ReportsSoFar(run: seq<World>, acts: seq<Action>, i: nat, n: nat)
    requires IsRun(run, acts) && i <= n <= |acts|
    requires forall k :: i <= k <= n ==> run[k].conn.phase.Reporting?
    ensures NoRepeats(Reported(acts, i, n))
    ensures forall r :: r in Reported(acts, i, n) ==> r !in run[n].conn.phase.todo
    ensures forall r :: r in run[i].conn.phase.todo <==> r in run[n].conn.phase.todo || r in Reported(acts, i, n)
    decreases n - i
  {
    if i < n {
      ReportsSoFar(run, acts, i, n - 1);
      RunStep(run, acts, n - 1);
      ReportStep(run[n - 1], acts[n - 1]);
    }
  }

  /** When the reports are over, every tracker in the set has been reported exactly once. */
  lemma EachReportedOnce(run: seq<World>, acts: seq<Action>, i: nat, n: nat)
    requires IsRun(run, acts) && i <= n < |acts|
    requires forall k :: i <= k <= n ==> run[k].conn.phase.Reporting?
    requires acts[n] == Return
    ensures NoRepeats(Reported(acts, i, n))
    ensures forall r :: r in run[i].conn.phase.todo <==> r in Reported(acts, i, n)
    ensures var p, c' := run[n].conn.phase, run[n + 1].conn;
      c'.phase == InCommitted(p.session, p.ctl) && p.session in c'.txns && c'.txns[p.session].provisional == {}
  {
    ReportsSoFar(run, acts, i, n);
    RunStep(run, acts, n);
    assert PhaseInv(run[n].conn) by { InvOnRuns(run, acts, n); }
  }

  // ---------- Which transaction the reported trackers belong to ----------

  /** The peer names a transaction in every transactional state. */
  predicate NamesIds(a: Action) {
    a.TrackerUpdate? && a.remote.Transactional? ==> a.remote.id != []
  }

  /** The session's recorded trackers are forgotten: its reports end, or its context is created. */
  predicate Empties(c: Conn, a: Action, s: nat) {
    || (a.Return? && c.phase.Reporting? && c.phase.session == s)
    || (a.Declare? && a.session == s && s !in c.txns && DeclareAccepted(c, s))
  }

  /** The trackers that a roll-back on the session has found recorded, since they were last forgotten. */
  function SeenAfter(c: Conn, a: Action, s: nat, seen: set<Ref>): set<Ref> {
    if Empties(c, a, s) then {} else if Aborts(c, a, s) then c.txns[s].provisional else seen
  }

  ghost function Seen(run: seq<World>, acts: seq<Action>, s: nat, n: nat): set<Ref>
    requires n <= |acts| && n <= |run|
  {
    if n == 0 then {} else SeenAfter(run[n - 1].conn, acts[n - 1], s, Seen(run, acts, s, n - 1))
  }

  /** A roll-back finds nothing recorded that no earlier one has found, unless its transaction is `id`. */
  predicate AbortFits(c: Conn, a: Action, s: nat, seen: set<Ref>, id: Id) {
    Aborts(c, a, s) ==> c.txns[s].provisional <= seen || c.txns[s].id == id
  }

  /** So does every roll-back on the session since the recorded trackers were last forgotten. */
  ghost predicate AbortsFit(run: seq<World>, acts: seq<Action>, s: nat, n: nat, id: Id)
    requires n <= |acts| && n <= |run|
  {
    n > 0 ==>
      || Empties(run[n - 1].conn, acts[n - 1], s)
      || (AbortsFit(run, acts, s, n - 1, id)
          && AbortFits(run[n - 1].conn, acts[n - 1], s, Seen(run, acts, s, n - 1), id))
  }

  /** What was recorded and no roll-back has found was recorded under the current transaction. */
  ghost predicate Fresh(w: World, s: nat, seen: set<Ref>) {
    s in w.conn.txns ==>
      && (forall m :: m in MarksOf(w, s) ==> m.id != [])
      && (forall m :: m in MarksOf(w, s) && m.tracker !in seen ==> m.id == w.conn.txns[s].id)
      && (w.conn.phase.InAborted? && w.conn.phase.session == s ==> forall m :: m in MarksOf(w, s) ==> m.tracker in seen)
      && (w.conn.phase.InError? && w.conn.phase.session == s ==> w.conn.txns[s].id == [])
      && (w.conn.phase.InCommitted? && w.conn.phase.session == s ==> MarksOf(w, s) == {})
  }

  /** Recorded trackers are outgoing deliveries of the session. */
  ghost predicate OnSession(w: World, s: nat) {
    s in w.conn.txns ==>
      forall m :: m in MarksOf(w, s) ==>
        Exists(w.conn.links, m.tracker) && w.conn.links[m.tracker.link].sender
            && w.conn.links[m.tracker.link].session == s
  }

  ghost predicate AllSettled(c: Conn, rs: set<Ref>) {
    forall r :: r in rs ==> Exists(c.links, r) && c.links[r.link].sender && At(c.links, r).settled
  }

  /** No tracker is recorded under two transactions. */
  ghost predicate OneId(w: World, s: nat) {
    s in w.conn.txns ==>
        forall m, k :: m in MarksOf(w, s) && k in MarksOf(w, s) && m.tracker == k.tracker ==> m.id == k.id
  }

  /** What a roll-back has found was recorded under `id`. */
  ghost predicate FoundUnder(w: World, s: nat, seen: set<Ref>, id: Id) {
    forall m :: m in MarksOf(w, s) && m.tracker in seen ==> m.id == id
  }

  predicate Records(c: Conn, a: Action, s: nat) {
    && a.TrackerUpdate? && Exists(c.links, a.ref) && c.links[a.ref.link].session == s
    && a.remote.Transactional? && s in c.txns && c.txns[s].id == a.remote.id
  }

  /** How a step changes what is recorded on a session. */
  lemma MarksMove(w: World, a: Action, s: nat)
    requires Enabled(w.conn, a) && s in Next(w.conn, a).txns
    ensures s !in w.conn.txns ==> Empties(w.conn, a, s)
    ensures MarksOf(Step(w, a), s) ==
      if Empties(w.conn, a, s) then {}
      else if Records(w.conn, a, s) then MarksOf(w, s) + {Mark(a.ref, a.remote.id)}
      else MarksOf(w, s)
  {
    if s !in w.conn.txns {
      NewContextNeedsDeclare(w.conn, a, s);
      if a.Answered? || a.Return? {
        NoNewContext(w.conn, a, s);
      }
    }
  }

  lemma NoNewContext(c: Conn, a: Action, s: nat)
    requires Enabled(c, a) && (a.Answered? || a.Return?) && s !in c.txns
    ensures s !in Next(c, a).txns
  {
  }

  lemma FreshAfterAnswer(w: World, s: nat, u: nat, ctl: Ref, answer: Answer, seen: set<Ref>)
    requires CanAnswer(w.conn, u, ctl) && Fresh(w, s, seen) && s in w.conn.txns && SessionInv(w, s) && MarksInv(w)
    ensures Fresh(Step(w, Answered(u, ctl, answer)), s, SeenAfter(w.conn, Answered(u, ctl, answer), s, seen))
  {
    if Aborts(w.conn, Answered(u, ctl, answer), s) {
      assert forall m :: m in MarksOf(w, s) ==> m.tracker in Trackers(MarksOf(w, s));
    }
  }

  lemma FreshAfterReturn(w: World, s: nat, seen: set<Ref>)
    requires Fresh(w, s, seen) && Enabled(w.conn, Return) && s in w.conn.txns && SessionInv(w, s)
    ensures Fresh(Step(w, Return), s, SeenAfter(w.conn, Return, s, seen))
  {
  }

  lemma FreshAfterControl(w: World, s: nat, a: Action, seen: set<Ref>)
    requires (a.Declare? || a.Discharge?) && Fresh(w, s, seen) && PhaseInv(w.conn)
    ensures Fresh(Step(w, a), s, SeenAfter(w.conn, a, s, seen))
  {
  }

  lemma FreshAfterUpdate(w: World, s: nat, a: Action, seen: set<Ref>)
    requires a.TrackerUpdate? && Enabled(w.conn, a) && Fresh(w, s, seen) && NamesIds(a)
    ensures Fresh(Step(w, a), s, seen)
  {
  }

  lemma FreshAfterPlain(w: World, s: nat, a: Action, seen: set<Ref>)
    requires Plain(a) && Enabled(w.conn, a) && Fresh(w, s, seen)
    ensures Fresh(Step(w, a), s, seen)
  {
    PlainActions(w, a);
  }

  lemma FreshKept(w: World, a: Action, s: nat, seen: set<Ref>)
    requires Inv(w) && MarksInv(w) && Fresh(w, s, seen) && Enabled(w.conn, a) && NamesIds(a)
    ensures Fresh(Step(w, a), s, SeenAfter(w.conn, a, s, seen))
  {
    if a.Answered? || a.Return? {
      if s !in w.conn.txns {
        NoNewContext(w.conn, a, s);
      } else if a.Return? {
        FreshAfterReturn(w, s, seen);
      } else {
        FreshAfterAnswer(w, s, a.session, a.ctl, a.answer, seen);
      }
    } else if a.TrackerUpdate? {
      FreshAfterUpdate(w, s, a, seen);
    } else if a.Declare? || a.Discharge? {
      FreshAfterControl(w, s, a, seen);
    } else {
      FreshAfterPlain(w, s, a, seen);
    }
  }

  lemma OnSessionKept(w: World, a: Action, s: nat)
    requires OnSession(w, s) && Enabled(w.conn, a)
    ensures OnSession(Step(w, a), s)
  {
    var w' := Step(w, a);
    if s in w'.conn.txns {
      MarksMove(w, a, s);
      StepsAreStable(w.conn, a);
      forall m | m in MarksOf(w', s)
        ensures Exists(w'.conn.links, m.tracker) && w'.conn.links[m.tracker.link].sender
                && w'.conn.links[m.tracker.link].session == s
      {
        assert KeptOrSettled(w.conn, w'.conn, m.tracker);
      }
    }
  }

  lemma SettledKept(c: Conn, a: Action, rs: set<Ref>)
    requires Enabled(c, a) && AllSettled(c, rs)
    ensures AllSettled(Next(c, a), rs)
  {
    StepsAreStable(c, a);
    forall r | r in rs
        ensures Exists(Next(c, a).links, r) && Next(c, a).links[r.link].sender && At(Next(c, a).links, r).settled
    {
      assert KeptOrSettled(c, Next(c, a), r);
    }
  }

  /** The sweep of a roll-back settles everything recorded on its session. */
  lemma SweptTrackers(w: World, a: Action, s: nat)
    requires Enabled(w.conn, a) && Aborts(w.conn, a, s) && TrackersInv(w.conn) && MarksInv(w) && OnSession(w, s)
    ensures AllSettled(Next(w.conn, a), w.conn.txns[s].provisional)
  {
    var c, c' := w.conn, Next(w.conn, a);
    forall r | r in c.txns[s].provisional
        ensures Exists(c'.links, r) && c'.links[r.link].sender && At(c'.links, r).settled
    {
      assert Tracked(c, r) && r in Trackers(MarksOf(w, s));
      AbortExact(c, a, s, r);
      LinksKeepRole(c, a, r.link);
    }
  }

  lemma SeenSettled(w: World, a: Action, s: nat, seen: set<Ref>)
    requires Enabled(w.conn, a) && TrackersInv(w.conn) && MarksInv(w) && OnSession(w, s) && AllSettled(w.conn, seen)
    ensures AllSettled(Next(w.conn, a), SeenAfter(w.conn, a, s, seen))
  {
    if Aborts(w.conn, a, s) {
      SweptTrackers(w, a, s);
    } else {
      SettledKept(w.conn, a, seen);
    }
  }

  lemma OneIdKept(w: World, a: Action, s: nat, seen: set<Ref>)
    requires Enabled(w.conn, a) && OneId(w, s) && Fresh(w, s, seen) && AllSettled(w.conn, seen)
    ensures OneId(Step(w, a), s)
  {
    if s in Next(w.conn, a).txns {
      MarksMove(w, a, s);
    }
  }

  /** One step changes what the roll-backs have found under other transactions only by a roll-back that does not fit. */
  lemma FoundStep(w: World, a: Action, s: nat, seen: set<Ref>, id: Id)
    requires Enabled(w.conn, a) && s in Next(w.conn, a).txns
    requires Fresh(w, s, seen) && AllSettled(w.conn, seen) && MarksInv(w)
    ensures FoundUnder(Step(w, a), s, SeenAfter(w.conn, a, s, seen), id) <==>
      Empties(w.conn, a, s) || (FoundUnder(w, s, seen, id) && AbortFits(w.conn, a, s, seen, id))
  {
    MarksMove(w, a, s);
    if !Empties(w.conn, a, s) && Aborts(w.conn, a, s) {
      FoundAtAbort(MarksOf(w, s), w.conn.txns[s].provisional, seen, w.conn.txns[s].id, id);
    }
  }

  /** The same on sets: what is recorded and not seen was recorded under `own`. */
  lemma FoundAtAbort(ms: set<Mark>, found: set<Ref>, seen: set<Ref>, own: Id, id: Id)
    requires found == Trackers(ms) && forall m :: m in ms && m.tracker !in seen ==> m.id == own
    ensures (forall m :: m in ms && m.tracker in found ==> m.id == id) <==>
      (forall m :: m in ms && m.tracker in seen ==> m.id == id) && (found <= seen || own == id)
  {
    assert forall m :: m in ms ==> m.tracker in found;
    if !(found <= seen) {
      var r :| r in found && r !in seen;
      var m :| m in ms && m.tracker == r;
      assert m.id == own;
    }
  }

  ghost predicate Accounted(w: World, s: nat, seen: set<Ref>) {
    Fresh(w, s, seen) && OnSession(w, s) && AllSettled(w.conn, seen) && OneId(w, s)
  }

  lemma AccountKept(w: World, a: Action, s: nat, seen: set<Ref>)
    requires Inv(w) && MarksInv(w) && Accounted(w, s, seen) && Enabled(w.conn, a) && NamesIds(a)
    ensures Accounted(Step(w, a), s, SeenAfter(w.conn, a, s, seen))
  {
    FreshKept(w, a, s, seen);
    OnSessionKept(w, a, s);
    SeenSettled(w, a, s, seen);
    OneIdKept(w, a, s, seen);
  }

  lemma AccountRunStep(run: seq<World>, acts: seq<Action>, k: nat, s: nat, seen: set<Ref>, id: Id)
    requires IsRun(run, acts) && k < |acts| && NamesIds(acts[k]) && Accounted(run[k], s, seen)
    ensures Accounted(run[k + 1], s, SeenAfter(run[k].conn, acts[k], s, seen))
    ensures s in run[k + 1].conn.txns && s !in run[k].conn.txns ==> Empties(run[k].conn, acts[k], s)
    ensures s in run[k + 1].conn.txns ==>
      (FoundUnder(run[k + 1], s, SeenAfter(run[k].conn, acts[k], s, seen), id) <==>
       Empties(run[k].conn, acts[k], s)
           || (FoundUnder(run[k], s, seen, id) && AbortFits(run[k].conn, acts[k], s, seen, id)))
  {
    InvOnRuns(run, acts, k);
    MarksOnRuns(run, acts, k);
    RunStep(run, acts, k);
    AccountKept(run[k], acts[k], s, seen);
    if s in run[k + 1].conn.txns {
      MarksMove(run[k], acts[k], s);
      FoundStep(run[k], acts[k], s, seen, id);
    }
  }

  lemma {:induction false} AccountOnRuns(run: seq<World>, acts: seq<Action>, n: nat, s: nat, id: Id)
    requires IsRun(run, acts) && n <= |acts|
    requires forall k {:trigger acts[k]} :: 0 <= k < n ==> NamesIds(acts[k])
    ensures Accounted(run[n], s, Seen(run, acts, s, n))
    ensures s in run[n].conn.txns ==> (FoundUnder(run[n], s, Seen(run, acts, s, n), id)
        <==> AbortsFit(run, acts, s, n, id))
    decreases n
  {
    if n > 0 {
      AccountOnRuns(run, acts, n - 1, s, id);
      AccountRunStep(run, acts, n - 1, s, Seen(run, acts, s, n - 1), id);
    }
  }

  lemma OwnTrackersIff(ms: set<Mark>, id: Id)
    requires forall m, k :: m in ms && k in ms && m.tracker == k.tracker ==> m.id == k.id
    ensures Trackers(ms) == TrackersUnder(ms, id) <==> forall m :: m in ms ==> m.id == id
  {
    if Trackers(ms) == TrackersUnder(ms, id) {
      forall m | m in ms ensures m.id == id {
        assert m.tracker in TrackersUnder(ms, id);
      }
    }
  }

  /**
   In every run a commit sets out to report exactly the trackers recorded since the
   previous commit. For a peer that names a transaction in its transactional states, they
   are the trackers of the committed transaction, and each belongs to no other, if and only
   if every roll-back on the session since then found nothing recorded that an earlier one
   had not found, or rolled back a transaction of the same id.
   */
  lemma CommitReports(run: seq<World>, acts: seq<Action>, i: nat, s: nat)
    requires IsRun(run, acts) && i < |acts| && Commits(run[i].conn, acts[i], s)
    requires forall k {:trigger acts[k]} :: 0 <= k < i ==> NamesIds(acts[k])
    ensures var ms, id := MarksOf(run[i], s), run[i].conn.txns[s].id;
      && run[i + 1].conn.phase == Reporting(s, acts[i].ctl, Trackers(ms))
      && (Trackers(ms) == TrackersUnder(ms, id) <==> forall m :: m in ms ==> m.id == id)
      && (Trackers(ms) == TrackersUnder(ms, id) <==> AbortsFit(run, acts, s, i, id))
  {
    var ms, id := MarksOf(run[i], s), run[i].conn.txns[s].id;
    AccountOnRuns(run, acts, i, s, id);
    OwnTrackersIff(ms, id);
    CommitSetsOut(run, acts, i, s);
  }

  /** The set a commit reports, whatever the peer names. */
  lemma CommitSetsOut(run: seq<World>, acts: seq<Action>, i: nat, s: nat)
    requires IsRun(run, acts) && i < |acts| && Commits(run[i].conn, acts[i], s)
    ensures run[i + 1].conn.phase == Reporting(s, acts[i].ctl, Trackers(MarksOf(run[i], s)))
  {
    MarksOnRuns(run, acts, i);
    RunStep(run, acts, i);
  }

  /** Every roll-back on the session since the recorded trackers were last forgotten found none. */
  ghost predicate AbortsFindNone(run: seq<World>, acts: seq<Action>, s: nat, n: nat)
    requires n <= |acts| && n <= |run|
  {
    n > 0 ==>
      || Empties(run[n - 1].conn, acts[n - 1], s)
      || (AbortsFindNone(run, acts, s, n - 1)
          && (Aborts(run[n - 1].conn, acts[n - 1], s) ==> run[n - 1].conn.txns[s].provisional == {}))
  }

  lemma {:induction false} FitsIffNone(run: seq<World>, acts: seq<Action>, s: nat, n: nat, id: Id)
    requires n <= |acts| && n <= |run|
    requires forall k {:trigger acts[k]} ::
      0 <= k < n && Aborts(run[k].conn, acts[k], s) ==> run[k].conn.txns[s].id != id
    ensures AbortsFit(run, acts, s, n, id) <==> AbortsFindNone(run, acts, s, n)
    ensures AbortsFindNone(run, acts, s, n) ==> Seen(run, acts, s, n) == {}
    decreases n
  {
    if n > 0 {
      FitsIffNone(run, acts, s, n - 1, id);
    }
  }

  /**
   With ids that are not used again, a commit reports exactly the trackers of its own
   transaction if and only if every roll-back since the previous commit found none recorded.
   */
  lemma CommitReportsItsOwnIff(run: seq<World>, acts: seq<Action>, i: nat, s: nat)
    requires IsRun(run, acts) && i < |acts| && Commits(run[i].conn, acts[i], s)
    requires forall k {:trigger acts[k]} :: 0 <= k < i ==> NamesIds(acts[k])
    requires forall k {:trigger acts[k]} ::
      0 <= k < i && Aborts(run[k].conn, acts[k], s) ==> run[k].conn.txns[s].id != run[i].conn.txns[s].id
    ensures run[i + 1].conn.phase ==
            Reporting(s, acts[i].ctl, TrackersUnder(MarksOf(run[i], s), run[i].conn.txns[s].id))
            <==> AbortsFindNone(run, acts, s, i)
  {
    CommitReports(run, acts, i, s);
    FitsIffNone(run, acts, s, i, run[i].conn.txns[s].id);
  }

  lemma {:induction false} NoAbortsFindNone(run: seq<World>, acts: seq<Action>, s: nat, n: nat)
    requires n <= |acts| && n <= |run|
    requires forall k {:trigger acts[k]} :: 0 <= k < n ==> !Aborts(run[k].conn, acts[k], s)
    ensures AbortsFindNone(run, acts, s, n)
    decreases n
  {
    if n > 0 {
      NoAbortsFindNone(run, acts, s, n - 1);
    }
  }

  /** In particular without any roll-back on the session. */
  lemma UndisturbedCommitReportsItsOwn(run: seq<World>, acts: seq<Action>, i: nat, s: nat)
    requires IsRun(run, acts) && i < |acts| && Commits(run[i].conn, acts[i], s)
    requires forall k {:trigger acts[k]} :: 0 <= k < i ==> NamesIds(acts[k]) && !Aborts(run[k].conn, acts[k], s)
    ensures run[i + 1].conn.phase ==
            Reporting(s, acts[i].ctl, TrackersUnder(MarksOf(run[i], s), run[i].conn.txns[s].id))
  {
    NoAbortsFindNone(run, acts, s, i);
    CommitReportsItsOwnIff(run, acts, i, s);
  }

  // ---------- With an abort ----------

  /** Rolling back a transaction does not forget what was recorded under it. */
  lemma AbortKeepsMarks(w: World, a: Action, s: nat)
    requires Enabled(w.conn, a) && Aborts(w.conn, a, s)
    ensures s in Step(w, a).conn.txns && Step(w, a).conn.txns[s].provisional == w.conn.txns[s].provisional
    ensures MarksOf(Step(w, a), s) == MarksOf(w, s)
  {
  }
}
