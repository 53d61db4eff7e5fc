/**
 The thread-safe sender that blocks user threads while there is no credit: a thread
 reserves a place under the lock, adds its message to the connection's work queue without
 it, and the handler thread sends and only then takes the lock to give the place up.
 */
module BoundedSender {
  import opened Common

  type Thread = nat

  /** The n-th message of a thread. */
  datatype Message = Message(thread: Thread, n: nat)

  /**
   `reserved` and `cached` are the two counters under the lock, and `credit` is the link's.
   `queue` says whether the work queue is known yet, and `running` whether it takes jobs.
   `adding` are the threads that hold a place and have not queued their message yet, and
   `gap` says that a message has been sent and its place not given up. `waiting` and
   `closing` are the threads blocked in `send` and in `close`, with whether each has been
   notified; `notified` says whether any notification has been made.
   */
  datatype State = State(queue: bool, running: bool, reserved: int, cached: int, credit: int,
                         adding: map<Thread, Message>, jobs: seq<Message>, gap: bool,
                         waiting: map<Thread, bool>, closing: map<Thread, bool>, notified: bool)

  datatype Action =
    | Open
    | Grant(n: nat)
    | Withdraw(n: nat)
    | OnSendable
    | Reserve(t: Thread, m: Message)  // send(), while it holds the lock
    | AddJob(t: Thread)               // send(), after it let go of the lock
    | DoSend                          // do_send(), before it takes the lock
    | Release                         // do_send(), while it holds the lock
    | AwaitQueue(t: Thread)           // close(), until the work queue is known
    | Finish                          // the connection ends, and its work queue with it

  predicate MustWait(s: State) {
    !s.queue || s.reserved >= s.cached
  }

  function Notified(s: State): State {
    s.(waiting := NotifyAll(s.waiting), closing := NotifyAll(s.closing), notified := true)
  }

  /** Handlers and jobs of one connection run one at a time and none after its end; `on_sendable` needs credit. */
  predicate Enabled(s: State, a: Action) {
    match a
    case Open => !s.queue && s.running && !s.gap
    case Grant(_) => true
    case Withdraw(n) => n <= s.credit
    case OnSendable => s.queue && s.running && !s.gap && s.credit > 0
    case Reserve(t, m) => t !in s.adding && m.thread == t
    case AddJob(t) => t in s.adding
    case DoSend => s.running && !s.gap && s.jobs != []
    case Release => s.gap
    case AwaitQueue(_) => true
    case Finish => s.running && !s.gap
  }

  /** A job added to a work queue that has finished is discarded, and `send` does not look. */
  function Added(s: State, t: Thread): State
    requires t in s.adding
  {
    s.(adding := s.adding - {t}, jobs := if s.running then s.jobs + [s.adding[t]] else s.jobs)
  }

  function Next(s: State, a: Action): State
    requires Enabled(s, a)
  {
    match a
    case Open => s.(queue := true)
    case Grant(n) => s.(credit := s.credit + n)
    case Withdraw(n) => s.(credit := s.credit - n)
    case OnSendable => Notified(s.(cached := s.credit))
    case Reserve(t, m) =>
      if MustWait(s) then s.(waiting := s.waiting[t := false])
      else s.(waiting := s.waiting - {t}, reserved := s.reserved + 1, adding := s.adding[t := m])
    case AddJob(t) => Added(s, t)
    case DoSend => s.(jobs := s.jobs[1..], credit := s.credit - 1, gap := true)
    case Release => Notified(s.(reserved := s.reserved - 1, cached := s.credit, gap := false))
    case AwaitQueue(t) =>
      if s.queue then s.(closing := s.closing - {t}) else s.(closing := s.closing[t := false])
    case Finish => s.(running := false)
  }

  const INITIAL := State(false, true, 0, 0, 0, map[], [], false, map[], map[], false)

  /**
   `sent` are the messages sent so far, `refused` those a finished work queue discarded, and
   `issued` how many messages of each thread `send` has let through.
   */
  datatype World = World(s: State, sent: seq<Message>, refused: seq<Message>, issued: map<Thread, nat>)

  function Issued(w: World, t: Thread): nat {
    if t in w.issued then w.issued[t] else 0
  }

  /** A thread sends its messages one after the other. */
  predicate Possible(w: World, a: Action) {
    Enabled(w.s, a) && (a.Reserve? ==> a.m.n == Issued(w, a.t))
  }

  function NextWorld(w: World, a: Action): World
    requires Possible(w, a)
  {
    World(Next(w.s, a),
          if a.DoSend? then w.sent + [w.s.jobs[0]] else w.sent,
          if a.AddJob? && !w.s.running then w.refused + [w.s.adding[a.t]] else w.refused,
          if a.Reserve? && !MustWait(w.s) then w.issued[a.t := Issued(w, a.t) + 1] else w.issued)
  }

  const START := World(INITIAL, [], [], map[])

  ghost predicate StepsAt(run: seq<World>, acts: seq<Action>, k: nat)
    requires k < |acts| && |run| == |acts| + 1
  {
    Possible(run[k], acts[k]) && run[k + 1] == NextWorld(run[k], acts[k])
  }

  ghost predicate IsRun(run: seq<World>, acts: seq<Action>) {
    && |run| == |acts| + 1
    && run[0] == START
    && forall i :: 0 <= i < |acts| ==> StepsAt(run, acts, i)
  }

  lemma RunStep(run: seq<World>, acts: seq<Action>, k: nat)
    requires IsRun(run, acts) && k < |acts|
    ensures Possible(run[k], acts[k]) && run[k + 1] == NextWorld(run[k], acts[k])
  {
    assert StepsAt(run, acts, k);
  }

  // ---------- Credit ----------

  function Gap(s: State): int {
    if s.gap then 1 else 0
  }

  /** The link has credit for every place that is held and not used, and the cached credit is not ahead of it. */
  ghost predicate Covered(s: State) {
    && |s.jobs| + |s.adding| + Gap(s) <= s.reserved
    && |s.jobs| + |s.adding| <= s.credit
    && s.cached <= s.credit + Gap(s)
  }

  /** The peer leaves the credit that the sender has counted on. */
  predicate LeavesRoom(s: State, a: Action) {
    a.Withdraw? ==> |s.jobs| + |s.adding| <= s.credit - a.n && s.cached <= s.credit - a.n + Gap(s)
  }

  lemma RemovedOne(m: map<Thread, Message>, t: Thread)
    requires t in m
    ensures |m - {t}| == |m| - 1
  {
    var r := m - {t};
    assert r.Keys == m.Keys - {t};
    assert |r.Keys| == |m.Keys| - 1;
    assert |r| == |r.Keys| && |m| == |m.Keys|;
  }

  lemma CoveredAfterAdd(s: State, t: Thread)
    requires Covered(s) && t in s.adding
    ensures Covered(Added(s, t))
  {
    RemovedOne(s.adding, t);
  }

  lemma CoveredAfterReserve(s: State, t: Thread, m: Message)
    requires Covered(s) && t !in s.adding && m.thread == t
    ensures Covered(Next(s, Reserve(t, m)))
  {
    if !MustWait(s) {
      assert |s.adding[t := m]| == |s.adding| + 1;
    }
  }

  /** A step keeps every reserved place covered exactly unless it withdraws credit that was counted on. */
  lemma CoveredStep(s: State, a: Action)
    requires Covered(s) && Enabled(s, a)
    ensures Covered(Next(s, a)) <==> LeavesRoom(s, a)
  {
    if a.AddJob? {
      CoveredAfterAdd(s, a.t);
    } else if a.Reserve? {
      CoveredAfterReserve(s, a.t, a.m);
    }
  }

  ghost predicate RoomLeft(run: seq<World>, acts: seq<Action>, n: nat)
    requires n <= |acts| && n <= |run|
  {
    n > 0 ==> LeavesRoom(run[n - 1].s, acts[n - 1]) && RoomLeft(run, acts, n - 1)
  }

  ghost predicate CoveredUpTo(run: seq<World>, n: nat)
    requires n < |run|
  {
    Covered(run[n].s) && (n > 0 ==> CoveredUpTo(run, n - 1))
  }

  lemma CoveredRunStep(run: seq<World>, acts: seq<Action>, k: nat)
    requires IsRun(run, acts) && k < |acts| && Covered(run[k].s)
    ensures Covered(run[k + 1].s) <==> LeavesRoom(run[k].s, acts[k])
  {
    RunStep(run, acts, k);
    CoveredStep(run[k].s, acts[k]);
  }

  /**
   Throughout a run, under any interleaving of any number of threads, the link has credit
   for every place held, if and only if the peer never withdraws credit that the sender has
   counted on.
   */
  lemma {:induction false} CoveredIff(run: seq<World>, acts: seq<Action>, n: nat)
    requires IsRun(run, acts) && n <= |acts|
    ensures CoveredUpTo(run, n) <==> RoomLeft(run, acts, n)
    decreases n
  {
    if n > 0 {
      CoveredIff(run, acts, n - 1);
      if CoveredUpTo(run, n - 1) {
        CoveredRunStep(run, acts, n - 1);
      }
    }
  }

  /** So then every message is sent with credit. */
  lemma SentWithCredit(run: seq<World>, acts: seq<Action>, i: nat)
    requires IsRun(run, acts) && i < |acts| && RoomLeft(run, acts, i)
    ensures acts[i].DoSend? ==> run[i].s.credit >= 1
    ensures 0 <= |run[i].s.jobs| + |run[i].s.adding| <= run[i].s.credit
  {
    CoveredIff(run, acts, i);
    RunStep(run, acts, i);
  }

  // ---------- Messages ----------

  /** What has been sent, what is queued, and what was refused, in the order in which it was added. */
  function Log(w: World): seq<Message> {
    w.sent + w.s.jobs + w.refused
  }

  ghost predicate InThreadOrder(log: seq<Message>) {
    forall i, j :: 0 <= i < j < |log| && log[i].thread == log[j].thread ==> log[i].n < log[j].n
  }

  ghost predicate Below(w: World) {
    && (forall i :: 0 <= i < |Log(w)| ==> Log(w)[i].n < Issued(w, Log(w)[i].thread))
    && (forall t :: t in w.s.adding ==> w.s.adding[t].thread == t && w.s.adding[t].n + 1 == Issued(w, t))
    && (forall i ::
      0 <= i < |Log(w)| && Log(w)[i].thread in w.s.adding ==> Log(w)[i].n < w.s.adding[Log(w)[i].thread].n)
  }

  ghost predicate NoneMissing(w: World) {
    forall t: Thread, n: nat :: n < Issued(w, t) ==>
      Message(t, n) in Log(w) || (t in w.s.adding && w.s.adding[t] == Message(t, n))
  }

  ghost predicate Logged(w: World) {
    InThreadOrder(Log(w)) && Below(w) && NoneMissing(w) && (w.s.running ==> w.refused == [])
  }

  lemma ReserveLogged(w: World, t: Thread, m: Message)
    requires Logged(w) && Possible(w, Reserve(t, m))
    ensures Logged(NextWorld(w, Reserve(t, m)))
  {
    var v := NextWorld(w, Reserve(t, m));
    assert Log(v) == Log(w);
    if !MustWait(w.s) {
      forall u: Thread, n: nat | n < Issued(v, u)
        ensures Message(u, n) in Log(v) || (u in v.s.adding && v.s.adding[u] == Message(u, n))
      {
        if u != t || n < Issued(w, t) {
          assert Message(u, n) in Log(w) || (u in w.s.adding && w.s.adding[u] == Message(u, n));
        }
      }
    }
  }

  lemma AddAppends(w: World, t: Thread)
    requires Possible(w, AddJob(t)) && (w.s.running ==> w.refused == [])
    ensures Log(NextWorld(w, AddJob(t))) == Log(w) + [w.s.adding[t]]
  {
    var m := w.s.adding[t];
    if w.s.running {
      assert w.sent + (w.s.jobs + [m]) + [] == w.sent + w.s.jobs + [] + [m];
    } else {
      assert w.sent + w.s.jobs + (w.refused + [m]) == w.sent + w.s.jobs + w.refused + [m];
    }
  }

  lemma AddedInOrder(w: World, t: Thread)
    requires InThreadOrder(Log(w)) && Below(w) && t in w.s.adding
    ensures InThreadOrder(Log(w) + [w.s.adding[t]])
  {
  }

  lemma AddLogged(w: World, t: Thread)
    requires Logged(w) && Possible(w, AddJob(t))
    ensures Logged(NextWorld(w, AddJob(t)))
  {
    var v := NextWorld(w, AddJob(t));
    AddAppends(w, t);
    AddedInOrder(w, t);
    forall u: Thread, n: nat | n < Issued(v, u)
      ensures Message(u, n) in Log(v) || (u in v.s.adding && v.s.adding[u] == Message(u, n))
    {
      assert Message(u, n) in Log(w) || (u in w.s.adding && w.s.adding[u] == Message(u, n));
      if Message(u, n) !in Log(w) && u == t {
        assert Log(v)[|Log(w)|] == Message(u, n);
      }
    }
  }

  lemma SameLogged(w: World, v: World)
    requires Logged(w) && Log(v) == Log(w) && v.s.adding == w.s.adding && v.issued == w.issued
    requires v.s.running ==> v.refused == []
    ensures Logged(v)
  {
    forall t: Thread ensures Issued(v, t) == Issued(w, t) {
    }
  }

  lemma LoggedKept(w: World, a: Action)
    requires Logged(w) && Possible(w, a)
    ensures Logged(NextWorld(w, a))
  {
    match a
    case Reserve(t, m) => ReserveLogged(w, t, m);
    case AddJob(t) => AddLogged(w, t);
    case DoSend =>
      assert w.s.jobs == [w.s.jobs[0]] + w.s.jobs[1..];
      assert Log(NextWorld(w, a)) == Log(w);
      SameLogged(w, NextWorld(w, a));
    case _ => SameLogged(w, NextWorld(w, a));
  }

  lemma LoggedRunStep(run: seq<World>, acts: seq<Action>, k: nat)
    requires IsRun(run, acts) && k < |acts| && Logged(run[k])
    ensures Logged(run[k + 1])
  {
    RunStep(run, acts, k);
    LoggedKept(run[k], acts[k]);
  }

  lemma {:induction false} LoggedOnRuns(run: seq<World>, acts: seq<Action>, i: nat)
    requires IsRun(run, acts) && i < |run|
    ensures Logged(run[i])
    decreases i
  {
    if i > 0 {
      LoggedOnRuns(run, acts, i - 1);
      LoggedRunStep(run, acts, i - 1);
    }
  }

  /**
   Each thread's messages are sent in its own order and no message is sent twice; a message
   let through by `send` has been sent, is queued, is about to be queued by its thread, or
   was refused by a work queue that had finished.
   */
  lemma EachSentOnceInOrder(run: seq<World>, acts: seq<Action>, i: nat, t: Thread, n: nat)
    requires IsRun(run, acts) && i < |run|
    ensures InThreadOrder(run[i].sent)
    ensures Message(t, n) in run[i].sent ==> n < Issued(run[i], t)
    ensures n < Issued(run[i], t) ==>
      || Message(t, n) in run[i].sent || Message(t, n) in run[i].s.jobs || Message(t, n) in run[i].refused
      || (t in run[i].s.adding && run[i].s.adding[t] == Message(t, n))
    ensures run[i].s.running ==> run[i].refused == []
  {
    LoggedOnRuns(run, acts, i);
    var w := run[i];
    assert forall k :: 0 <= k < |w.sent| ==> Log(w)[k] == w.sent[k];
  }

  /** Every message let through has been sent, is queued, or is about to be queued. */
  ghost predicate NoneLost(w: World) {
    forall t: Thread, n: nat :: n < Issued(w, t) ==>
      Message(t, n) in w.sent + w.s.jobs || (t in w.s.adding && w.s.adding[t] == Message(t, n))
  }

  lemma NoneLostUnlessRefused(w: World)
    requires Logged(w)
    ensures NoneLost(w) <==> w.refused == []
  {
    var kept := w.sent + w.s.jobs;
    assert Log(w) == kept + w.refused;
    if w.refused != [] {
      var m := w.refused[0];
      assert Log(w)[|kept|] == m;
      forall k | 0 <= k < |kept| ensures kept[k] != m {
        assert Log(w)[k] == kept[k];
      }
      assert m == Message(m.thread, m.n) && m.n < Issued(w, m.thread);
    } else {
      assert Log(w) == kept;
    }
  }

  /** In the first n steps no thread adds its message after the connection has ended. */
  ghost predicate AddedInTime(run: seq<World>, acts: seq<Action>, n: nat)
    requires n <= |acts| && n <= |run|
  {
    n > 0 ==> (acts[n - 1].AddJob? ==> run[n - 1].s.running) && AddedInTime(run, acts, n - 1)
  }

  lemma RefusedRunStep(run: seq<World>, acts: seq<Action>, k: nat)
    requires IsRun(run, acts) && k < |acts|
    ensures run[k + 1].refused == [] <==> run[k].refused == [] && (acts[k].AddJob? ==> run[k].s.running)
  {
    RunStep(run, acts, k);
  }

  lemma {:induction false} RefusedIff(run: seq<World>, acts: seq<Action>, n: nat)
    requires IsRun(run, acts) && n <= |acts|
    ensures run[n].refused == [] <==> AddedInTime(run, acts, n)
    decreases n
  {
    if n > 0 {
      RefusedIff(run, acts, n - 1);
      RefusedRunStep(run, acts, n - 1);
    }
  }

  /** In every run, no message let through is lost if and only if no thread adds one after the connection has ended. */
  lemma NoneLostIff(run: seq<World>, acts: seq<Action>, n: nat)
    requires IsRun(run, acts) && n <= |acts|
    ensures NoneLost(run[n]) <==> AddedInTime(run, acts, n)
  {
    LoggedOnRuns(run, acts, n);
    NoneLostUnlessRefused(run[n]);
    RefusedIff(run, acts, n);
  }

  ghost predicate AllSent(w: World) {
    forall t: Thread, n: nat :: n < Issued(w, t) ==> Message(t, n) in w.sent
  }

  lemma NotYetSent(w: World, k: nat)
    requires Logged(w) && |w.sent| <= k < |Log(w)|
    ensures Log(w)[k] !in w.sent && Log(w)[k].n < Issued(w, Log(w)[k].thread)
  {
    forall j | 0 <= j < |w.sent| ensures w.sent[j] != Log(w)[k] {
      assert Log(w)[j] == w.sent[j];
    }
  }

  /** After the connection has ended no queued message is sent. */
  lemma NothingLeavesAtRest(w: World, a: Action)
    requires Possible(w, a)
    ensures !w.s.running ==> NextWorld(w, a).sent == w.sent && NextWorld(w, a).s.jobs == w.s.jobs
  {
  }

  lemma AllSentUnless(w: World)
    requires Logged(w)
    ensures AllSent(w) <==> w.s.jobs == [] && w.s.adding == map[] && w.refused == []
  {
    if w.s.jobs != [] || w.refused != [] {
      NotYetSent(w, |w.sent|);
      var m := Log(w)[|w.sent|];
      assert m == Message(m.thread, m.n);
    } else {
      assert Log(w) == w.sent;
      if w.s.adding != map[] {
        var t :| t in w.s.adding;
        assert w.s.adding[t] == Message(t, w.s.adding[t].n);
      }
    }
  }

  /**
   In every run all messages let through have been sent if and only if none is queued, none
   is being added and none was added after the connection had ended; what is queued when it
   ends is never sent.
   */
  lemma AllSentIff(run: seq<World>, acts: seq<Action>, n: nat)
    requires IsRun(run, acts) && n <= |acts|
    ensures AllSent(run[n]) <==> run[n].s.jobs == [] && run[n].s.adding == map[] && AddedInTime(run, acts, n)
    ensures n < |acts| && !run[n].s.running ==> run[n + 1].sent == run[n].sent && run[n + 1].s.jobs == run[n].s.jobs
  {
    var w := run[n];
    assert AllSent(w) <==> w.s.jobs == [] && w.s.adding == map[] && w.refused == [] by {
      LoggedOnRuns(run, acts, n);
      AllSentUnless(w);
    }
    RefusedIff(run, acts, n);
    if n < |acts| {
      RunStep(run, acts, n);
      NothingLeavesAtRest(run[n], acts[n]);
    }
  }

  /** Every reserved place is that of a message on its way, or of one refused, whose place is never given up. */
  ghost predicate PlacesHeld(w: World) {
    w.s.reserved == |w.s.jobs| + |w.s.adding| + Gap(w.s) + |w.refused|
  }

  lemma PlacesKept(w: World, a: Action)
    requires PlacesHeld(w) && Possible(w, a)
    ensures PlacesHeld(NextWorld(w, a))
  {
    match a
    case AddJob(t) => PlacesAfterAdd(w, t);
    case Reserve(t, m) => assert |w.s.adding[t := m]| == |w.s.adding| + 1;
    case DoSend => assert |w.s.jobs[1..]| == |w.s.jobs| - 1;
    case _ =>
  }

  lemma PlacesAfterAdd(w: World, t: Thread)
    requires PlacesHeld(w) && Possible(w, AddJob(t))
    ensures PlacesHeld(NextWorld(w, AddJob(t)))
  {
    RemovedOne(w.s.adding, t);
    if w.s.running {
      assert |w.s.jobs + [w.s.adding[t]]| == |w.s.jobs| + 1;
    } else {
      assert |w.refused + [w.s.adding[t]]| == |w.refused| + 1;
    }
  }

  // ---------- Notifications ----------

  /** A sender that was not notified would wait again, and a closer has been notified if anyone has. */
  ghost predicate Awake(s: State) {
    && (forall t :: t in s.waiting && !s.waiting[t] ==> MustWait(s))
    && (!s.queue ==> !s.notified && s.cached <= 0 && s.reserved == 0 && !s.gap)
    && (forall t :: t in s.closing ==> (s.closing[t] <==> s.notified))
  }

  lemma AwakeKept(s: State, a: Action)
    requires Awake(s) && Enabled(s, a) && |s.jobs| + |s.adding| + Gap(s) <= s.reserved
    ensures Awake(Next(s, a))
  {
  }

  /** What the object below keeps. */
  ghost predicate Sound(s: State) {
    Covered(s) && Awake(s)
  }

  lemma SoundStep(s: State, a: Action)
    requires Sound(s) && Enabled(s, a) && LeavesRoom(s, a)
    ensures Sound(Next(s, a))
  {
    CoveredStep(s, a);
    AwakeKept(s, a);
  }

  lemma AwakeRunStep(run: seq<World>, acts: seq<Action>, k: nat)
    requires IsRun(run, acts) && k < |acts| && Awake(run[k].s) && PlacesHeld(run[k])
    ensures Awake(run[k + 1].s) && PlacesHeld(run[k + 1])
    ensures run[k + 1].s.notified <==> run[k].s.notified || acts[k].OnSendable? || acts[k].Release?
  {
    RunStep(run, acts, k);
    PlacesKept(run[k], acts[k]);
    AwakeKept(run[k].s, acts[k]);
  }

  /** Among the first n steps one notifies. */
  predicate Notifies(acts: seq<Action>, n: nat)
    requires n <= |acts|
  {
    n > 0 && (acts[n - 1].OnSendable? || acts[n - 1].Release? || Notifies(acts, n - 1))
  }

  lemma {:induction false} AwakeOnRuns(run: seq<World>, acts: seq<Action>, i: nat)
    requires IsRun(run, acts) && i < |run|
    ensures Awake(run[i].s) && PlacesHeld(run[i]) && (run[i].s.notified <==> Notifies(acts, i))
    decreases i
  {
    if i > 0 {
      AwakeOnRuns(run, acts, i - 1);
      AwakeRunStep(run, acts, i - 1);
    }
  }

  /** No thread blocked in `send` sleeps through its chance, whatever the peer does with credit. */
  lemma NoSenderOverlooked(run: seq<World>, acts: seq<Action>, i: nat, t: Thread)
    requires IsRun(run, acts) && i < |run| && t in run[i].s.waiting && !run[i].s.waiting[t]
    ensures MustWait(run[i].s)
  {
    AwakeOnRuns(run, acts, i);
  }

  /**
   A thread blocked in `close` has been notified if and only if `on_sendable` or the end of
   a `do_send` has come; both can come only after the open, which itself notifies nobody.
   */
  lemma CloserOverlookedIff(run: seq<World>, acts: seq<Action>, i: nat, t: Thread)
    requires IsRun(run, acts) && i < |run| && t in run[i].s.closing
    ensures !run[i].s.closing[t] <==> !Notifies(acts, i)
    ensures Notifies(acts, i) ==> run[i].s.queue
  {
    AwakeOnRuns(run, acts, i);
  }

  /** The places a run has leaked are those of refused messages. */
  lemma PlacesLeakedByRefusal(run: seq<World>, acts: seq<Action>, i: nat)
    requires IsRun(run, acts) && i < |run|
    ensures run[i].s.reserved - |run[i].s.jobs| - |run[i].s.adding| - Gap(run[i].s) == |run[i].refused|
    ensures run[i].s.reserved == |run[i].s.jobs| + |run[i].s.adding| + Gap(run[i].s) <==> AddedInTime(run, acts, i)
  {
    AwakeOnRuns(run, acts, i);
    RefusedIff(run, acts, i);
  }

  // ---------- When a thread is let through ----------

  /** The link's credit as the handler thread last saw it. */
  ghost function CreditSeen(run: seq<World>, acts: seq<Action>, n: nat): int
    requires n <= |acts| && n <= |run|
  {
    if n == 0 then 0
    else if acts[n - 1].OnSendable? || acts[n - 1].Release? then run[n - 1].s.credit
    else CreditSeen(run, acts, n - 1)
  }

  /** Whether `send` lets the thread's message through at this step. */
  ghost predicate LetThrough(run: seq<World>, acts: seq<Action>, n: nat)
    requires n < |acts| && |run| == |acts| + 1
  {
    acts[n].Reserve? && Issued(run[n + 1], acts[n].t) == Issued(run[n], acts[n].t) + 1
  }

  /** The messages let through whose place has not been given up. */
  ghost function InFlight(run: seq<World>, acts: seq<Action>, n: nat): int
    requires n <= |acts| && |run| == |acts| + 1
  {
    if n == 0 then 0
    else InFlight(run, acts, n - 1) + (if LetThrough(run, acts, n - 1) then 1 else 0)
                                    - (if acts[n - 1].Release? then 1 else 0)
  }

  lemma CountersMove(w: World, a: Action)
    requires Possible(w, a)
    ensures var v := NextWorld(w, a);
      && (v.s.queue <==> w.s.queue || a.Open?) && (v.s.running <==> w.s.running && !a.Finish?)
      && v.s.cached == (if a.OnSendable? || a.Release? then w.s.credit else w.s.cached)
      && v.s.reserved == w.s.reserved
           + (if a.Reserve? && Issued(v, a.t) == Issued(w, a.t) + 1 then 1 else 0) - (if a.Release? then 1 else 0)
  {
  }

  lemma {:induction false} FlagsOnRuns(run: seq<World>, acts: seq<Action>, n: nat)
    requires IsRun(run, acts) && n <= |acts|
    ensures run[n].s.queue <==> Open in acts[..n]
    ensures run[n].s.running <==> Finish !in acts[..n]
    decreases n
  {
    if n > 0 {
      FlagsOnRuns(run, acts, n - 1);
      RunStep(run, acts, n - 1);
      CountersMove(run[n - 1], acts[n - 1]);
      assert acts[..n] == acts[..n - 1] + [acts[n - 1]];
    }
  }

  lemma {:induction false} CountersOnRuns(run: seq<World>, acts: seq<Action>, n: nat)
    requires IsRun(run, acts) && n <= |acts|
    ensures run[n].s.cached == CreditSeen(run, acts, n) && run[n].s.reserved == InFlight(run, acts, n)
    decreases n
  {
    if n > 0 {
      CountersOnRuns(run, acts, n - 1);
      RunStep(run, acts, n - 1);
      CountersMove(run[n - 1], acts[n - 1]);
    }
  }

  /**
   In every run `send` lets a thread through if and only if the sender is open and fewer
   messages are in flight than the handler thread last saw credit; otherwise the thread
   waits, and nothing else changes.
   */
  lemma LetThroughIff(run: seq<World>, acts: seq<Action>, i: nat)
    requires IsRun(run, acts) && i < |acts| && acts[i].Reserve?
    ensures LetThrough(run, acts, i) <==> Open in acts[..i] && InFlight(run, acts, i) < CreditSeen(run, acts, i)
    ensures LetThrough(run, acts, i) <==> acts[i].t in run[i + 1].s.adding
    ensures LetThrough(run, acts, i) <==> acts[i].t !in run[i + 1].s.waiting
    ensures !LetThrough(run, acts, i) ==> run[i + 1].s == run[i].s.(waiting := run[i].s.waiting[acts[i].t := false])
  {
    FlagsOnRuns(run, acts, i);
    CountersOnRuns(run, acts, i);
    RunStep(run, acts, i);
  }

  /** The credit granted less the credit withdrawn in the first n steps. */
  function NetCredit(acts: seq<Action>, n: nat): int
    requires n <= |acts|
  {
    if n == 0 then 0
    else NetCredit(acts, n - 1)
         + (if acts[n - 1].Grant? then acts[n - 1].n else 0) - (if acts[n - 1].Withdraw? then acts[n - 1].n else 0)
  }

  lemma CreditMoves(w: World, a: Action)
    requires Possible(w, a)
    ensures var v := NextWorld(w, a);
      v.s.credit + |v.sent| == w.s.credit + |w.sent|
        + (if a.Grant? then a.n else 0) - (if a.Withdraw? then a.n else 0)
  {
  }

  /** In every run the link's credit is what the peer has left granted, less one for each message sent. */
  lemma {:induction false} CreditOnRuns(run: seq<World>, acts: seq<Action>, n: nat)
    requires IsRun(run, acts) && n <= |acts|
    ensures run[n].s.credit == NetCredit(acts, n) - |run[n].sent|
    decreases n
  {
    if n > 0 {
      CreditOnRuns(run, acts, n - 1);
      RunStep(run, acts, n - 1);
      CreditMoves(run[n - 1], acts[n - 1]);
    }
  }

  /** In every run a thread in `close` waits exactly until the sender has been opened. */
  lemma CloseWaitsIff(run: seq<World>, acts: seq<Action>, i: nat)
    requires IsRun(run, acts) && i < |acts| && acts[i].AwaitQueue?
    ensures acts[i].t in run[i + 1].s.closing <==> Open !in acts[..i]
  {
    FlagsOnRuns(run, acts, i);
    RunStep(run, acts, i);
  }

  // ---------- Examples ----------

  lemma Extended(run: seq<World>, acts: seq<Action>, a: Action) returns (run': seq<World>, acts': seq<Action>)
    requires IsRun(run, acts) && Possible(run[|run| - 1], a)
    ensures IsRun(run', acts') && run'[|run'| - 1] == NextWorld(run[|run| - 1], a)
  {
    run', acts' := run + [NextWorld(run[|run| - 1], a)], acts + [a];
    forall i | 0 <= i < |acts'| ensures StepsAt(run', acts', i) {
      if i < |acts| {
        assert StepsAt(run, acts, i);
      }
    }
  }

  /** A run that ends in the given world. */
  ghost predicate Reaches(run: seq<World>, acts: seq<Action>, w: World) {
    IsRun(run, acts) && run[|run| - 1] == w
  }

  lemma ExtendedTo(run: seq<World>, acts: seq<Action>, w: World, a: Action, w': World)
    returns (run': seq<World>, acts': seq<Action>)
    requires Reaches(run, acts, w) && Possible(w, a) && NextWorld(w, a) == w'
    ensures Reaches(run', acts', w')
  {
    run', acts' := Extended(run, acts, a);
  }

  /** Opening notifies nobody: a thread that called `close` before it stays blocked although the work queue is known. */
  lemma CloserCanBeOverlooked() returns (run: seq<World>, acts: seq<Action>)
    ensures IsRun(run, acts)
    ensures var s := run[|run| - 1].s; s.queue && 7 in s.closing && !s.closing[7]
  {
    var w := World(INITIAL.(closing := map[7 := false]), [], [], map[]);
    run, acts := ExtendedTo([START], [], START, AwaitQueue(7), w);
    run, acts := ExtendedTo(run, acts, w, Open, w.(s := w.s.(queue := true)));
  }

  const FIRST := Message(3, 0)

  /** The sender with one credit, which it knows of, and what its threads hold. */
  function OneCredit(running: bool, reserved: int,
      credit: int, adding: map<Thread, Message>, jobs: seq<Message>): State
  {
    State(true, running, reserved, 1, credit, adding, jobs, false, map[], map[], true)
  }

  /** A thread has been let through and has not added its message. */
  lemma OneLetThrough() returns (run: seq<World>, acts: seq<Action>)
    ensures Reaches(run, acts, World(OneCredit(true, 1, 1, map[3 := FIRST], []), [], [], map[3 := 1]))
  {
    var w1 := World(INITIAL.(queue := true), [], [], map[]);
    var w2 := World(INITIAL.(queue := true, credit := 1), [], [], map[]);
    var w3 := World(OneCredit(true, 0, 1, map[], []), [], [], map[]);
    run, acts := ExtendedTo([START], [], START, Open, w1);
    run, acts := ExtendedTo(run, acts, w1, Grant(1), w2);
    assert NotifyAll(map[]) == map[];
    run, acts := ExtendedTo(run, acts, w2, OnSendable, w3);
    run, acts := ExtendedTo(run, acts, w3, Reserve(3, FIRST),
        World(OneCredit(true, 1, 1, map[3 := FIRST], []), [], [], map[3 := 1]));
  }

  /** With one credit granted, counted on and then withdrawn, a message is sent without credit. */
  lemma SentWithoutCredit() returns (run: seq<World>, acts: seq<Action>)
    ensures IsRun(run, acts) && Enabled(run[|run| - 1].s, DoSend) && run[|run| - 1].s.credit == 0
  {
    var w := World(OneCredit(true, 1, 1, map[3 := FIRST], []), [], [], map[3 := 1]);
    var w1 := World(OneCredit(true, 1, 0, map[3 := FIRST], []), [], [], map[3 := 1]);
    run, acts := OneLetThrough();
    run, acts := ExtendedTo(run, acts, w, Withdraw(1), w1);
    assert map[3 := FIRST] - {3} == map[];
    run, acts := ExtendedTo(run, acts, w1, AddJob(3),
        World(OneCredit(true, 1, 0, map[], [FIRST]), [], [], map[3 := 1]));
  }

  /** The connection ends between the two halves of `send`: the message is gone and its place stays taken. */
  lemma LetThroughAndLost() returns (run: seq<World>, acts: seq<Action>)
    ensures IsRun(run, acts) && run[|run| - 1].refused == [FIRST] && !NoneLost(run[|run| - 1])
    ensures var s := run[|run| - 1].s; s.reserved == 1 && s.jobs == [] && s.adding == map[] && !s.gap
  {
    var w := World(OneCredit(true, 1, 1, map[3 := FIRST], []), [], [], map[3 := 1]);
    var w1 := World(OneCredit(false, 1, 1, map[3 := FIRST], []), [], [], map[3 := 1]);
    var w2 := World(OneCredit(false, 1, 1, map[], []), [], [FIRST], map[3 := 1]);
    run, acts := OneLetThrough();
    run, acts := ExtendedTo(run, acts, w, Finish, w1);
    assert map[3 := FIRST] - {3} == map[];
    run, acts := ExtendedTo(run, acts, w1, AddJob(3), w2);
    LoggedOnRuns(run, acts, |run| - 1);
    NoneLostUnlessRefused(w2);
  }

  /**
   The sender object: each method is what one thread does while it holds the lock, or
   between two holds. As long as the peer leaves the credit counted on, the object keeps
   credit for every place held, and nobody waits who need not.
   */
  class Sender {
    var queue: bool
    var running: bool
    var reserved: int
    var cached: int
    var credit: int
    var adding: map<Thread, Message>
    var jobs: seq<Message>
    var gap: bool
    var waiting: map<Thread, bool>
    var closing: map<Thread, bool>
    var notified: bool

    ghost function View(): State
      reads this
    {
      State(queue, running, reserved, cached, credit, adding, jobs, gap, waiting, closing, notified)
    }

    ghost predicate Valid()
      reads this
    {
      Sound(View())
    }

    constructor ()
      ensures Valid() && View() == INITIAL
    {
      queue, running, reserved, cached, credit, gap, notified := false, true, 0, 0, 0, false, false;
      adding, jobs, waiting, closing := map[], [], map[], map[];
    }

    /** `send`, while it holds the lock: wait, or count the message. */
    method Reserve(t: Thread, m: Message) returns (ok: bool)
      requires Valid() && t !in adding && m.thread == t
      modifies this
      ensures Valid() && View() == Next(old(View()), Action.Reserve(t, m))
      ensures ok <==> !MustWait(old(View()))
    {
      ghost var was := View();
      ok := queue && reserved < cached;
      if ok {
        waiting := waiting - {t};
        reserved := reserved + 1;
        adding := adding[t := m];
      } else {
        waiting := waiting[t := false];
      }
      SoundStep(was, Action.Reserve(t, m));
    }

    /** `send`, after it let go of the lock. */
    method AddJob(t: Thread)
      requires Valid() && t in adding
      modifies this
      ensures Valid() && View() == Next(old(View()), Action.AddJob(t))
    {
      SoundStep(View(), Action.AddJob(t));
      if running {
        jobs := jobs + [adding[t]];
      }
      adding := adding - {t};
    }

    method OnSendable()
      requires Valid() && Enabled(View(), Action.OnSendable)
      modifies this
      ensures Valid() && View() == Next(old(View()), Action.OnSendable)
    {
      SoundStep(View(), Action.OnSendable);
      cached := credit;
      NotifyThreads();
    }

    /** `do_send`, before it takes the lock: there is credit for the message. */
    method DoSend() returns (m: Message)
      requires Valid() && Enabled(View(), Action.DoSend)
      modifies this
      ensures Valid() && View() == Next(old(View()), Action.DoSend)
      ensures m == old(jobs)[0] && old(credit) >= 1
    {
      SoundStep(View(), Action.DoSend);
      m := jobs[0];
      jobs := jobs[1..];
      credit := credit - 1;
      gap := true;
    }

    /** `do_send`, while it holds the lock. */
    method Release()
      requires Valid() && gap
      modifies this
      ensures Valid() && View() == Next(old(View()), Action.Release)
    {
      SoundStep(View(), Action.Release);
      reserved := reserved - 1;
      cached := credit;
      gap := false;
      NotifyThreads();
    }

    method NotifyThreads()
      modifies this`waiting, this`closing, this`notified
      ensures View() == Notified(old(View()))
    {
      waiting := NotifyAll(waiting);
      closing := NotifyAll(closing);
      notified := true;
    }
  }
}
