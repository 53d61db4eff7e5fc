/**
 Every interleaving of the scheduler's critical sections.

 A system state holds the shared timers, the vectors that threads have extracted and are
 still executing, and the clock. Any number of user threads may schedule and cancel at
 any point, tasks may do so while they run, several threads may be inside
 `run_timer_jobs`, and a clock sample may be older than the critical section that uses
 it. `book`, `place`, `log` and `slack` are history: no step looks at them.
 */
module SchedulerRuns {
  import opened Common
  import opened Heap
  import opened Scheduler

  datatype Place = Waiting | Taken(batch: nat) | Finished

  datatype Event =
    | Added(handle: nat)
    | Cancelled(handle: nat)
    | Turn(batch: nat, item: Scheduled, ran: bool)

  datatype System = System(
    timers: Timers,
    batches: seq<seq<Scheduled>>,  // extracted vectors, each executed from its end
    clock: int,
    handling: nat,                 // threads holding a timeout event, before extraction
    sweeping: nat,                 // threads past extraction, about to run the work queues
    jobs: nat,                     // jobs queued on a container work queue
    busy: bool,                    // whether a thread is running jobs of that queue
    book: map<nat, Scheduled>,     // every task ever scheduled
    place: map<nat, Place>,        // where each of them is
    log: seq<Event>,               // what happened, in order
    slack: nat)                    // the oldest clock sample an extraction used

  datatype Action =
    | Schedule(delay: int, task: nat)
    | Cancel(handle: nat)
    | Expire
    | Deliver
    | Extract(sample: int, tasks: seq<Scheduled>)
    | TakeTurn(batch: nat)
    | AddJob
    | BeginJobs
    | EndJobs
    | Tick(to: int)

  const START := System(Timers([], {}, 0, None, false), [], 0, 0, 0, 0, false, map[], map[], [], 0)

  function Last(s: seq<Scheduled>): Scheduled
    requires s != []
  {
    s[|s| - 1]
  }

  function Taking(place: map<nat, Place>, tasks: seq<Scheduled>, b: nat): (r: map<nat, Place>)
    ensures r.Keys == place.Keys
    ensures forall h :: h in place ==>
      r[h] == if exists i :: 0 <= i < |tasks| && tasks[i].handle == h then Taken(b) else place[h]
  {
    map h | h in place :: if exists i :: 0 <= i < |tasks| && tasks[i].handle == h then Taken(b) else place[h]
  }

  ghost predicate NextSchedule(s: System, delay: int, task: nat, s': System) {
    var h := s.timers.next;
    && Schedules(s.timers, s'.timers, s.clock, delay, task, h)
    && s' == s.(timers := s'.timers,
                book := s.book[h := Scheduled(s.clock + delay, task, h)],
                place := s.place[h := Waiting],
                log := s.log + [Added(h)])
  }

  ghost predicate NextCancel(s: System, h: nat, s': System) {
    && Cancels(s.timers, s'.timers, h)
    && s' == s.(timers := s'.timers, log := s.log + [Cancelled(h)])
  }

  ghost predicate NextExtract(s: System, sample: int, tasks: seq<Scheduled>, s': System) {
    && 0 < s.handling && sample <= s.clock
    && Extracts(s.timers, s'.timers, sample, s.clock, tasks)
    && s' == s.(timers := s'.timers,
                batches := s.batches + [tasks],
                handling := s.handling - 1,
                sweeping := s.sweeping + 1,
                place := Taking(s.place, tasks, |s.batches|),
                slack := if s.slack < s.clock - sample then s.clock - sample else s.slack)
  }

  ghost predicate NextTurn(s: System, b: nat, s': System) {
    && b < |s.batches| && s.batches[b] != []
    && var item := Last(s.batches[b]);
    && TakesTurn(s.timers, s'.timers, item.handle, item.handle in s.timers.active)
    && s' == s.(timers := s'.timers,
                batches := s.batches[b := s.batches[b][..|s.batches[b]| - 1]],
                place := s.place[item.handle := Finished],
                log := s.log + [Turn(b, item, item.handle in s.timers.active)])
  }

  /** Steps of the proactor, the work queues and the clock: they touch no task. */
  ghost predicate NextOutside(s: System, a: Action, s': System)
    requires a.Expire? || a.Deliver? || a.AddJob? || a.BeginJobs? || a.EndJobs? || a.Tick?
  {
    match a
    case Expire =>
      && s.timers.armed.Some? && s.timers.armed.value <= s.clock
      && s' == s.(timers := s.timers.(armed := None, due := true))
    case Deliver =>
      && s.timers.due
      && s' == s.(timers := s.timers.(due := false), handling := s.handling + 1)
    case AddJob =>
      s' == s.(timers := s.timers.(armed := Some(s.clock)), jobs := s.jobs + 1)
    case BeginJobs =>
      && 0 < s.sweeping
      && s' == if s.busy then s.(sweeping := s.sweeping - 1)
               else s.(sweeping := s.sweeping - 1, jobs := 0, busy := true)
    case EndJobs =>
      && s.busy
      && s' == s.(busy := false)
    case Tick(to) =>
      && s.clock <= to
      && s' == s.(clock := to)
  }

  /** One atomic step of the system. */
  ghost predicate Next(s: System, a: Action, s': System) {
    match a
    case Schedule(delay, task) => NextSchedule(s, delay, task, s')
    case Cancel(h) => NextCancel(s, h, s')
    case Extract(sample, tasks) => NextExtract(s, sample, tasks, s')
    case TakeTurn(b) => NextTurn(s, b, s')
    case _ => NextOutside(s, a, s')
  }

  ghost predicate StepsAt(run: seq<System>, acts: seq<Action>, k: nat)
    requires k < |acts| && |run| == |acts| + 1
  {
    Next(run[k], acts[k], run[k + 1])
  }

  /** A run: states from the start, each reached from the one before by one action. */
  ghost predicate IsRun(run: seq<System>, acts: seq<Action>) {
    && |run| == |acts| + 1
    && run[0] == START
    && forall i :: 0 <= i < |acts| ==> StepsAt(run, acts, i)
  }

  lemma RunStep(run: seq<System>, acts: seq<Action>, k: nat)
    requires IsRun(run, acts) && k < |acts|
    ensures Next(run[k], acts[k], run[k + 1])
  {
    assert StepsAt(run, acts, k);
  }

  // ---------- Where every task is ----------

  /** The entry is the one recorded for its handle, and the record places it at `p`. */
  ghost predicate Filed(s: System, x: Scheduled, p: Place) {
    x.handle in s.book && s.book[x.handle] == x && x.handle in s.place && s.place[x.handle] == p
  }

  ghost predicate NoRepeats(m: multiset<Scheduled>) {
    forall x :: x in m ==> m[x] == 1
  }

  ghost predicate HeapFiled(s: System) {
    && NoRepeats(multiset(s.timers.deferred))
    && forall x :: x in multiset(s.timers.deferred) ==> Filed(s, x, Waiting)
  }

  ghost predicate BatchFiled(s: System, b: nat)
    requires b < |s.batches|
  {
    && NoRepeats(multiset(s.batches[b]))
    && Descending(s.batches[b])
    && AllDue(s.batches[b], s.clock)
    && forall x :: x in multiset(s.batches[b]) ==> Filed(s, x, Taken(b))
  }

  /** A live handle is in the heap or in a batch: it is never lost. */
  ghost predicate Held(s: System, h: nat) {
    && h in s.book && h in s.place
    && (s.place[h] == Waiting ==> s.book[h] in multiset(s.timers.deferred))
    && (s.place[h].Taken? ==> s.place[h].batch < |s.batches| && s.book[h] in multiset(s.batches[s.place[h].batch]))
  }

  ghost predicate Placement(s: System) {
    && (forall h: nat :: h in s.book <==> h < s.timers.next)
    && (forall h :: h in s.book ==> s.book[h].handle == h)
    && s.place.Keys == s.book.Keys
    && HeapFiled(s)
    && (forall b :: 0 <= b < |s.batches| ==> BatchFiled(s, b))
    && (forall h :: h in s.timers.active ==> Held(s, h) && s.place[h] != Finished)
  }

  lemma LastIsMember(s: seq<Scheduled>)
    requires s != []
    ensures multiset(s) == multiset(s[..|s| - 1]) + multiset{Last(s)}
  {
    assert s == s[..|s| - 1] + [Last(s)];
  }

  /** A new handle leaves every other entry where it is filed. */
  lemma FiledAfterSchedule(s: System, delay: int, task: nat, s': System, x: Scheduled, p: Place)
    requires NextSchedule(s, delay, task, s') && Filed(s, x, p) && x.handle < s.timers.next
    ensures Filed(s', x, p)
  {
  }

  lemma HeapAfterSchedule(s: System, delay: int, task: nat, s': System)
    requires HeapFiled(s) && NextSchedule(s, delay, task, s')
    requires forall h: nat :: h in s.book <==> h < s.timers.next
    ensures HeapFiled(s')
  {
    var x := Scheduled(s.clock + delay, task, s.timers.next);
    var before, after := multiset(s.timers.deferred), multiset(s'.timers.deferred);
    assert x !in before by {
      assert !Filed(s, x, Waiting);
    }
    forall y | y in after ensures after[y] == 1 && Filed(s', y, Waiting) {
      if y != x {
        assert y in before && Filed(s, y, Waiting);
        FiledAfterSchedule(s, delay, task, s', y, Waiting);
      }
    }
  }

  lemma BatchAfterSchedule(s: System, delay: int, task: nat, s': System, b: nat)
    requires NextSchedule(s, delay, task, s') && b < |s.batches| && BatchFiled(s, b)
    requires forall h: nat :: h in s.book <==> h < s.timers.next
    ensures BatchFiled(s', b)
  {
    forall y | y in multiset(s.batches[b]) ensures Filed(s', y, Taken(b)) {
      assert Filed(s, y, Taken(b));
      FiledAfterSchedule(s, delay, task, s', y, Taken(b));
    }
  }

  lemma HeldAfterSchedule(s: System, delay: int, task: nat, s': System, g: nat)
    requires NextSchedule(s, delay, task, s') && g in s'.timers.active
    requires g in s.timers.active ==> Held(s, g) && s.place[g] != Finished
    ensures Held(s', g) && s'.place[g] != Finished
  {
    assert Scheduled(s.clock + delay, task, s.timers.next) in multiset(s'.timers.deferred);
  }

  lemma PlacementAfterSchedule(s: System, delay: int, task: nat, s': System)
    requires Placement(s) && NextSchedule(s, delay, task, s')
    ensures Placement(s')
  {
    HeapAfterSchedule(s, delay, task, s');
    forall b | 0 <= b < |s'.batches| ensures BatchFiled(s', b) {
      BatchAfterSchedule(s, delay, task, s', b);
    }
    forall g | g in s'.timers.active ensures Held(s', g) && s'.place[g] != Finished {
      HeldAfterSchedule(s, delay, task, s', g);
    }
  }

  /** Nothing already in a batch can be extracted again. */
  lemma TakenOnlyFromHeap(s: System, tasks: seq<Scheduled>, y: Scheduled, b: nat)
    requires Filed(s, y, Taken(b)) && HeapFiled(s)
    requires forall x :: x in multiset(tasks) ==> x in multiset(s.timers.deferred)
    ensures !exists i :: 0 <= i < |tasks| && tasks[i].handle == y.handle
  {
    forall i | 0 <= i < |tasks| ensures tasks[i].handle != y.handle {
      assert tasks[i] in multiset(tasks);
      assert Filed(s, tasks[i], Waiting);
    }
  }

  lemma HeapAfterExtract(s: System, sample: int, tasks: seq<Scheduled>, s': System)
    requires Placement(s) && NextExtract(s, sample, tasks, s')
    ensures HeapFiled(s')
    ensures NoRepeats(multiset(tasks))
    ensures forall x :: x in multiset(tasks) ==> Filed(s', x, Taken(|s.batches|))
  {
    var before, kept, taken := multiset(s.timers.deferred), multiset(s'.timers.deferred), multiset(tasks);
    assert before == kept + taken;
    forall x | x in taken ensures taken[x] == 1 && Filed(s', x, Taken(|s.batches|)) {
      assert before[x] == 1 && Filed(s, x, Waiting);
      assert x in tasks;
    }
    forall x | x in kept ensures kept[x] == 1 && Filed(s', x, Waiting) {
      assert before[x] == 1 && Filed(s, x, Waiting);
      assert before[x] == kept[x] + taken[x];
      forall i | 0 <= i < |tasks| ensures tasks[i].handle != x.handle {
        var y := tasks[i];
        assert y in taken && y in before && Filed(s, y, Waiting);
        assert y.handle == x.handle ==> y == x;
      }
    }
  }

  lemma LiveAfterExtract(s: System, sample: int, tasks: seq<Scheduled>, s': System, h: nat)
    requires Placement(s) && NextExtract(s, sample, tasks, s') && h in s.timers.active
    ensures Held(s', h) && s'.place[h] != Finished
  {
    var before, taken := multiset(s.timers.deferred), multiset(tasks);
    assert Held(s, h);
    if i :| 0 <= i < |tasks| && tasks[i].handle == h {
      assert tasks[i] in taken && tasks[i] in before && Filed(s, tasks[i], Waiting);
      assert s'.batches[|s.batches|] == tasks;
    } else if s.place[h].Taken? {
      assert s'.batches[s.place[h].batch] == s.batches[s.place[h].batch];
    } else {
      assert s.book[h] in before && s.book[h] !in taken;
    }
  }

  lemma PlacementAfterExtract(s: System, sample: int, tasks: seq<Scheduled>, s': System)
    requires Placement(s) && NextExtract(s, sample, tasks, s')
    ensures Placement(s')
  {
    HeapAfterExtract(s, sample, tasks, s');
    var n := |s.batches|;
    forall b | 0 <= b < |s'.batches| ensures BatchFiled(s', b) {
      if b < n {
        assert s'.batches[b] == s.batches[b] && BatchFiled(s, b);
        forall y | y in multiset(s.batches[b]) ensures Filed(s', y, Taken(b)) {
          TakenOnlyFromHeap(s, tasks, y, b);
        }
      } else {
        assert s'.batches[n] == tasks;
      }
    }
    forall h | h in s'.timers.active ensures Held(s', h) && s'.place[h] != Finished {
      LiveAfterExtract(s, sample, tasks, s', h);
    }
  }

  /** The batch whose last item has its turn. */
  lemma SameBatchAfterTurn(s: System, b: nat, s': System)
    requires b < |s.batches| && BatchFiled(s, b) && NextTurn(s, b, s')
    ensures BatchFiled(s', b)
  {
    var item, rest := Last(s.batches[b]), s'.batches[b];
    LastIsMember(s.batches[b]);
    assert multiset(s.batches[b]) == multiset(rest) + multiset{item} && multiset(s.batches[b])[item] == 1;
    forall y | y in multiset(rest) ensures multiset(rest)[y] == 1 && Filed(s', y, Taken(b)) {
      assert y in multiset(s.batches[b]) && Filed(s, y, Taken(b)) && Filed(s, item, Taken(b));
      assert y != item;
    }
  }

  /** Another batch: its items are filed elsewhere. */
  lemma OtherBatchAfterTurn(s: System, b: nat, s': System, c: nat)
    requires b < |s.batches| && BatchFiled(s, b) && NextTurn(s, b, s')
    requires c < |s.batches| && c != b && BatchFiled(s, c)
    ensures BatchFiled(s', c)
  {
    var item := Last(s.batches[b]);
    LastIsMember(s.batches[b]);
    assert Filed(s, item, Taken(b));
    forall y | y in multiset(s.batches[c]) ensures Filed(s', y, Taken(c)) {
      assert Filed(s, y, Taken(c));
    }
  }

  lemma BatchAfterTurn(s: System, b: nat, s': System, c: nat)
    requires Placement(s) && NextTurn(s, b, s') && c < |s.batches|
    ensures BatchFiled(s', c)
  {
    assert BatchFiled(s, b) && BatchFiled(s, c);
    if c == b {
      SameBatchAfterTurn(s, b, s');
    } else {
      OtherBatchAfterTurn(s, b, s', c);
    }
  }

  lemma LiveAfterTurn(s: System, b: nat, s': System, h: nat)
    requires Placement(s) && NextTurn(s, b, s') && h in s'.timers.active
    ensures Held(s', h) && s'.place[h] != Finished
  {
    assert Held(s, h);
    LastIsMember(s.batches[b]);
    if s.place[h].Taken? && s.place[h].batch == b {
      assert s.book[h] in multiset(s'.batches[b]);
    }
  }

  lemma PlacementAfterTurn(s: System, b: nat, s': System)
    requires Placement(s) && NextTurn(s, b, s')
    ensures Placement(s')
  {
    assert Last(s.batches[b]) in multiset(s.batches[b]) by { LastIsMember(s.batches[b]); }
    assert BatchFiled(s, b) && Filed(s, Last(s.batches[b]), Taken(b));
    forall x | x in multiset(s'.timers.deferred) ensures Filed(s', x, Waiting) {
      assert Filed(s, x, Waiting);
    }
    forall c | 0 <= c < |s'.batches| ensures BatchFiled(s', c) {
      BatchAfterTurn(s, b, s', c);
    }
    forall h | h in s'.timers.active ensures Held(s', h) && s'.place[h] != Finished {
      LiveAfterTurn(s, b, s', h);
    }
  }

  lemma PlacementIgnores(s: System, s': System)
    requires Placement(s)
    requires s'.timers.deferred == s.timers.deferred && s'.timers.active <= s.timers.active
    requires s'.timers.next == s.timers.next && s'.batches == s.batches && s.clock <= s'.clock
    requires s'.book == s.book && s'.place == s.place
    ensures Placement(s')
  {
    forall x | x in multiset(s'.timers.deferred) ensures Filed(s', x, Waiting) {
      assert Filed(s, x, Waiting);
    }
    forall c | 0 <= c < |s'.batches| ensures BatchFiled(s', c) {
      assert BatchFiled(s, c);
      forall y | y in multiset(s'.batches[c]) ensures Filed(s', y, Taken(c)) {
        assert Filed(s, y, Taken(c));
      }
    }
    forall h | h in s'.timers.active ensures Held(s', h) && s'.place[h] != Finished {
      assert Held(s, h);
    }
  }

  lemma PlacementKept(s: System, a: Action, s': System)
    requires Placement(s) && Next(s, a, s')
    ensures Placement(s')
  {
    match a
    case Schedule(delay, task) => PlacementAfterSchedule(s, delay, task, s');
    case Extract(sample, tasks) => PlacementAfterExtract(s, sample, tasks, s');
    case TakeTurn(b) => PlacementAfterTurn(s, b, s');
    case _ => PlacementIgnores(s, s');
  }

  // ---------- What the log shows ----------

  /** Among the first `k` events, `h` was cancelled after it had been scheduled. */
  ghost predicate CancelledBefore(log: seq<Event>, h: nat, k: nat) {
    exists i, j :: 0 <= i < j < k && j < |log| && log[i] == Added(h) && log[j] == Cancelled(h)
  }

  lemma AppendingKeepsPast(log: seq<Event>, e: Event, h: nat, k: nat)
    requires k <= |log|
    ensures CancelledBefore(log + [e], h, k) <==> CancelledBefore(log, h, k)
  {
    var longer := log + [e];
    if i, j :| 0 <= i < j < k && longer[i] == Added(h) && longer[j] == Cancelled(h) {
      assert log[i] == Added(h) && log[j] == Cancelled(h);
    }
    if i, j :| 0 <= i < j < k && log[i] == Added(h) && log[j] == Cancelled(h) {
      assert longer[i] == Added(h) && longer[j] == Cancelled(h);
    }
  }

  lemma AppendingAnEvent(log: seq<Event>, e: Event, h: nat)
    ensures CancelledBefore(log + [e], h, |log| + 1) <==>
            CancelledBefore(log, h, |log|) || (e == Cancelled(h) && Added(h) in log)
  {
    var longer := log + [e];
    if i, j :| 0 <= i < j < |longer| && longer[i] == Added(h) && longer[j] == Cancelled(h) {
      if j < |log| {
        assert log[i] == Added(h) && log[j] == Cancelled(h);
      }
    }
    if i, j :| 0 <= i < j < |log| && log[i] == Added(h) && log[j] == Cancelled(h) {
      assert longer[i] == Added(h) && longer[j] == Cancelled(h);
    }
    if e == Cancelled(h) && Added(h) in log {
      var i :| 0 <= i < |log| && log[i] == Added(h);
      assert longer[i] == Added(h) && longer[|log|] == Cancelled(h);
    }
  }

  /** Exactly the scheduled, unfinished and uncancelled handles are live. */
  ghost predicate Liveness(s: System) {
    && (forall h: nat :: h in s.book <==> Added(h) in s.log)
    && (forall h :: h in s.book ==>
          (h in s.timers.active <==> h in s.place && s.place[h] != Finished && !CancelledBefore(s.log, h, |s.log|)))
  }

  /** A task whose turn has come ran if and only if it had not been cancelled by then. */
  ghost predicate Verdicts(s: System) {
    forall k :: 0 <= k < |s.log| && s.log[k].Turn? ==>
      (s.log[k].ran <==> !CancelledBefore(s.log, s.log[k].item.handle, k))
  }

  ghost predicate TurnFiled(s: System, k: nat)
    requires k < |s.log| && s.log[k].Turn?
  {
    && Filed(s, s.log[k].item, Finished)
    && s.log[k].item.time <= s.clock
    && s.log[k].batch < |s.batches|
    && forall x :: x in s.batches[s.log[k].batch] ==> s.log[k].item.time <= x.time
  }

  ghost predicate TurnsFiled(s: System) {
    forall k :: 0 <= k < |s.log| && s.log[k].Turn? ==> TurnFiled(s, k)
  }

  /** No handle has two turns, and the turns of one batch are in deadline order. */
  ghost predicate TurnsOrdered(s: System) {
    forall j, k :: 0 <= j < k < |s.log| && s.log[j].Turn? && s.log[k].Turn? ==>
      && s.log[j].item.handle != s.log[k].item.handle
      && (s.log[j].batch == s.log[k].batch ==> s.log[j].item.time <= s.log[k].item.time)
  }

  lemma LivenessAfterSchedule(s: System, delay: int, task: nat, s': System)
    requires Placement(s) && Liveness(s) && NextSchedule(s, delay, task, s')
    ensures Liveness(s')
  {
    var newest := s.timers.next;
    ScheduleInLog(s.log, newest);
    NothingBeforeAdded(s.log, newest);
    forall h | h in s'.book
      ensures h in s'.timers.active <==> s'.place[h] != Finished && !CancelledBefore(s'.log, h, |s'.log|)
    {
      assert CancelledBefore(s'.log, h, |s'.log|) <==> CancelledBefore(s.log, h, |s.log|);
    }
  }

  /** Scheduling adds one handle and cancels none. */
  lemma ScheduleInLog(log: seq<Event>, newest: nat)
    ensures forall h: nat :: Added(h) in log + [Added(newest)] <==> Added(h) in log || h == newest
    ensures forall h: nat ::
      CancelledBefore(log + [Added(newest)], h, |log + [Added(newest)]|) <==> CancelledBefore(log, h, |log|)
  {
    forall h: nat ensures Added(h) in log + [Added(newest)] <==> Added(h) in log || h == newest {
      AppendedMember(log, Added(newest), Added(h));
    }
    forall h: nat
      ensures CancelledBefore(log + [Added(newest)], h, |log + [Added(newest)]|) <==> CancelledBefore(log, h, |log|)
    {
      AppendingAnEvent(log, Added(newest), h);
    }
  }

  lemma LivenessAfterCancel(s: System, c: nat, s': System)
    requires Placement(s) && Liveness(s) && NextCancel(s, c, s')
    ensures Liveness(s')
  {
    forall h: nat ensures Added(h) in s'.log <==> Added(h) in s.log {
      AppendedMember(s.log, Cancelled(c), Added(h));
    }
    forall h | h in s.book
      ensures CancelledBefore(s'.log, h, |s'.log|) <==> CancelledBefore(s.log, h, |s.log|) || h == c
    {
      AppendingAnEvent(s.log, Cancelled(c), h);
    }
  }

  lemma LivenessAfterTurn(s: System, b: nat, s': System)
    requires Placement(s) && Liveness(s) && NextTurn(s, b, s')
    ensures Liveness(s')
  {
    TurnOfFiled(s, b);
    var item := Last(s.batches[b]);
    var e := Turn(b, item, item.handle in s.timers.active);
    assert s'.log == s.log + [e];
    TurnLeavesLog(s.log, e);
    forall h | h in s.book
      ensures h in s'.timers.active <==> s'.place[h] != Finished && !CancelledBefore(s'.log, h, |s'.log|)
    {
      assert CancelledBefore(s'.log, h, |s'.log|) <==> CancelledBefore(s.log, h, |s.log|);
    }
  }

  /** A turn neither adds nor cancels. */
  lemma TurnLeavesLog(log: seq<Event>, e: Event)
    requires e.Turn?
    ensures forall h: nat :: Added(h) in log + [e] <==> Added(h) in log
    ensures forall h: nat :: CancelledBefore(log + [e], h, |log + [e]|) <==> CancelledBefore(log, h, |log|)
  {
    forall h: nat ensures Added(h) in log + [e] <==> Added(h) in log {
      AppendedMember(log, e, Added(h));
    }
    forall h: nat ensures CancelledBefore(log + [e], h, |log + [e]|) <==> CancelledBefore(log, h, |log|) {
      AppendingAnEvent(log, e, h);
    }
  }

  lemma AppendedMember(log: seq<Event>, e: Event, x: Event)
    ensures x in log + [e] <==> x in log || x == e
  {
  }

  lemma LivenessAfterExtract(s: System, sample: int, tasks: seq<Scheduled>, s': System)
    requires Placement(s) && Liveness(s) && NextExtract(s, sample, tasks, s')
    ensures Liveness(s')
  {
    forall i | 0 <= i < |tasks| ensures Filed(s, tasks[i], Waiting) {
      assert tasks[i] in multiset(tasks);
      assert tasks[i] in multiset(s.timers.deferred);
    }
    forall h | h in s.book ensures s'.place[h] == Finished <==> s.place[h] == Finished {
    }
  }

  lemma LivenessKept(s: System, a: Action, s': System)
    requires Placement(s) && Liveness(s) && Next(s, a, s')
    ensures Liveness(s')
  {
    match a
    case Schedule(_, _) => LivenessAfterSchedule(s, a.delay, a.task, s');
    case Cancel(h) => LivenessAfterCancel(s, h, s');
    case TakeTurn(b) => LivenessAfterTurn(s, b, s');
    case Extract(sample, tasks) => LivenessAfterExtract(s, sample, tasks, s');
    case _ =>
  }

  lemma NothingBeforeAdded(log: seq<Event>, h: nat)
    requires Added(h) !in log
    ensures !CancelledBefore(log, h, |log|)
  {
  }

  lemma VerdictsKept(s: System, a: Action, s': System)
    requires Placement(s) && Liveness(s) && Verdicts(s) && Next(s, a, s')
    ensures Verdicts(s')
  {
    if s'.log != s.log {
      var e := s'.log[|s.log|];
      assert s'.log == s.log + [e];
      forall k | 0 <= k < |s'.log| && s'.log[k].Turn?
        ensures s'.log[k].ran <==> !CancelledBefore(s'.log, s'.log[k].item.handle, k)
      {
        AppendingKeepsPast(s.log, e, s'.log[k].item.handle, k);
        if k == |s.log| {
          TurnOfFiled(s, a.batch);
        }
      }
    }
  }

  lemma TurnOfFiled(s: System, b: nat)
    requires Placement(s) && b < |s.batches| && s.batches[b] != []
    ensures Filed(s, Last(s.batches[b]), Taken(b))
  {
    assert BatchFiled(s, b);
    assert Last(s.batches[b]) in multiset(s.batches[b]) by { LastIsMember(s.batches[b]); }
  }

  lemma TurnsFiledKept(s: System, a: Action, s': System)
    requires Placement(s) && TurnsFiled(s) && Next(s, a, s')
    ensures TurnsFiled(s')
  {
    forall k | 0 <= k < |s'.log| && s'.log[k].Turn? ensures TurnFiled(s', k) {
      if k < |s.log| {
        assert s'.log[k] == s.log[k] && TurnFiled(s, k);
        match a
        case Extract(sample, tasks) => EarlierTurnAfterExtract(s, sample, tasks, s', k);
        case TakeTurn(b) => TurnOfFiled(s, b);
        case _ =>
      } else {
        NewTurnFiled(s, a.batch, s');
      }
    }
  }

  lemma EarlierTurnAfterExtract(s: System, sample: int, tasks: seq<Scheduled>, s': System, k: nat)
    requires Placement(s) && NextExtract(s, sample, tasks, s')
    requires k < |s.log| && s.log[k].Turn? && TurnFiled(s, k)
    ensures TurnFiled(s', k)
  {
    var item := s.log[k].item;
    if i :| 0 <= i < |tasks| && tasks[i].handle == item.handle {
      assert tasks[i] in multiset(tasks);
      assert tasks[i] in multiset(s.timers.deferred);
      assert Filed(s, tasks[i], Waiting);
    }
  }

  lemma NewTurnFiled(s: System, b: nat, s': System)
    requires Placement(s) && NextTurn(s, b, s')
    ensures TurnFiled(s', |s.log|)
  {
    TurnOfFiled(s, b);
    assert BatchFiled(s, b);
    var rest := s'.batches[b];
    forall x | x in rest ensures Last(s.batches[b]).time <= x.time {
      var i :| 0 <= i < |rest| && rest[i] == x;
      assert s.batches[b][i] == x;
    }
  }

  lemma TurnsOrderedKept(s: System, a: Action, s': System)
    requires Placement(s) && TurnsFiled(s) && TurnsOrdered(s) && Next(s, a, s')
    ensures TurnsOrdered(s')
  {
    forall j, k | 0 <= j < k < |s'.log| && s'.log[j].Turn? && s'.log[k].Turn?
      ensures s'.log[j].item.handle != s'.log[k].item.handle
      ensures s'.log[j].batch == s'.log[k].batch ==> s'.log[j].item.time <= s'.log[k].item.time
    {
      assert s'.log[j] == s.log[j] && TurnFiled(s, j);
      if k == |s.log| {
        TurnOfFiled(s, a.batch);
        assert Last(s.batches[a.batch]) in s.batches[a.batch];
      } else {
        assert s'.log[k] == s.log[k];
      }
    }
  }

  /** A task that has left its batch has had a turn. */
  ghost predicate TurnsComplete(s: System) {
    forall h :: h in s.place && s.place[h] == Finished ==> HasTurn(s.log, h)
  }

  ghost predicate HasTurn(log: seq<Event>, h: nat) {
    exists k :: 0 <= k < |log| && log[k].Turn? && log[k].item.handle == h
  }

  lemma TurnsCompleteKept(s: System, a: Action, s': System)
    requires Placement(s) && TurnsComplete(s) && Next(s, a, s')
    ensures TurnsComplete(s')
  {
    forall h | h in s'.place && s'.place[h] == Finished ensures HasTurn(s'.log, h) {
      if h in s.place && s.place[h] == Finished {
        var k :| 0 <= k < |s.log| && s.log[k].Turn? && s.log[k].item.handle == h;
        assert s'.log[k] == s.log[k];
      } else {
        assert s'.log[|s.log|].Turn?;
      }
    }
  }

  // ---------- The proactor's timeout ----------

  function Max(a: int, b: int): int {
    if a < b then b else a
  }

  /** Something will make a thread look at the timers no later than `time`. */
  ghost predicate WakesBy(s: System, time: int) {
    s.timers.due || 0 < s.handling || (s.timers.armed.Some? && s.timers.armed.value <= time)
  }

  /**
   For every live task in the heap a wake-up is on its way: no later than its deadline, or
   at once when the deadline has passed, up to the age of the oldest clock sample used.
   */
  ghost predicate Awake(s: System) {
    && IsHeap(s.timers.deferred, |s.timers.deferred|)
    && forall i :: 0 <= i < |s.timers.deferred| && s.timers.deferred[i].handle in s.timers.active ==>
         WakesBy(s, Max(s.timers.deferred[i].time, s.clock) + s.slack)
  }

  lemma AwakeKept(s: System, a: Action, s': System)
    requires Awake(s) && Next(s, a, s')
    ensures Awake(s')
  {
    var d := s'.timers.deferred;
    forall i | 0 <= i < |d| && d[i].handle in s'.timers.active
      ensures WakesBy(s', Max(d[i].time, s'.clock) + s'.slack)
    {
      if a.Schedule? || a.Extract? {
        FrontIsEarliest(d, |d|, i);
      } else {
        assert WakesBy(s, Max(d[i].time, s.clock) + s.slack);
      }
    }
  }

  /** A queued work-queue job has a thread on its way to it. */
  ghost predicate JobsAwake(s: System) {
    0 < s.jobs ==> WakesBy(s, s.clock) || 0 < s.sweeping
  }

  /** The deadline that will be at the front once a task due at `time` is added. */
  function FrontWith(s: System, time: int): int {
    if s.timers.deferred == [] || time < s.timers.deferred[0].time then time else s.timers.deferred[0].time
  }

  /** Whether an action leaves the wake-up that `add` asked for in place. */
  ghost predicate KeepsJobWake(s: System, a: Action) {
    var onTheWay := 0 < s.handling || 0 < s.sweeping;
    0 < s.jobs ==>
      match a
      case Cancel(h) => onTheWay || s.timers.active - {h} != {}
      case Schedule(delay, _) =>
        var ahead := FrontWith(s, s.clock + delay) - s.clock;
        onTheWay || s.timers.due || ahead <= 0 || ahead % 0x1_0000_0000 == 0
      case BeginJobs => !s.busy || 1 < s.sweeping || WakesBy(s, s.clock)
      case _ => true
  }

  lemma FrontAfterSchedule(s: System, delay: int, task: nat, s': System)
    requires IsHeap(s.timers.deferred, |s.timers.deferred|) && NextSchedule(s, delay, task, s')
    ensures s'.timers.deferred[0].time == FrontWith(s, s.clock + delay)
  {
    var d, d' := s.timers.deferred, s'.timers.deferred;
    var x := Scheduled(s.clock + delay, task, s.timers.next);
    assert d'[0] in multiset(d') && x in multiset(d');
    var i :| 0 <= i < |d'| && d'[i] == x;
    FrontIsEarliest(d', |d'|, i);
    if d != [] {
      assert d[0] in multiset(d) && d[0] in multiset(d');
      var j :| 0 <= j < |d'| && d'[j] == d[0];
      FrontIsEarliest(d', |d'|, j);
    }
    if d'[0] != x {
      assert d'[0] in multiset(d);
      var j :| 0 <= j < |d| && d[j] == d'[0];
      FrontIsEarliest(d, |d|, j);
    }
  }

  /** The wake-up of a container work queue survives an action exactly when `KeepsJobWake` says so. */
  lemma JobWakeKeptIff(s: System, a: Action, s': System)
    requires Awake(s) && JobsAwake(s) && Next(s, a, s')
    ensures JobsAwake(s') <==> KeepsJobWake(s, a)
  {
    if a.Schedule? {
      FrontAfterSchedule(s, a.delay, a.task, s');
    }
  }

  ghost predicate JobsAwakeUpTo(run: seq<System>, n: nat)
    requires n < |run|
  {
    JobsAwake(run[n]) && (n > 0 ==> JobsAwakeUpTo(run, n - 1))
  }

  ghost predicate WakeKeptUpTo(run: seq<System>, acts: seq<Action>, n: nat)
    requires n <= |acts| && n <= |run|
  {
    n > 0 ==> KeepsJobWake(run[n - 1], acts[n - 1]) && WakeKeptUpTo(run, acts, n - 1)
  }

  // ---------- Every run ----------

  ghost predicate Inv(s: System) {
    && Placement(s) && Liveness(s) && Verdicts(s) && TurnsFiled(s) && TurnsOrdered(s)
    && TurnsComplete(s) && Awake(s)
  }

  lemma InvKept(s: System, a: Action, s': System)
    requires Inv(s) && Next(s, a, s')
    ensures Inv(s')
  {
    PlacementKept(s, a, s');
    LivenessKept(s, a, s');
    VerdictsKept(s, a, s');
    TurnsFiledKept(s, a, s');
    TurnsOrderedKept(s, a, s');
    TurnsCompleteKept(s, a, s');
    AwakeKept(s, a, s');
  }

  lemma InvAtStart()
    ensures Inv(START)
  {
    assert START.timers.deferred == [] && START.log == [] && START.batches == [];
  }

  lemma InvRunStep(run: seq<System>, acts: seq<Action>, i: nat)
    requires IsRun(run, acts) && 0 < i < |run| && Inv(run[i - 1])
    ensures Inv(run[i])
  {
    RunStep(run, acts, i - 1);
    InvKept(run[i - 1], acts[i - 1], run[i]);
  }

  lemma {:induction false} InvOnRuns(run: seq<System>, acts: seq<Action>, i: nat)
    requires IsRun(run, acts) && i < |run|
    ensures Inv(run[i])
    decreases i
  {
    if i == 0 {
      InvAtStart();
    } else {
      InvOnRuns(run, acts, i - 1);
      InvRunStep(run, acts, i);
    }
  }

  lemma JobWakeRunStep(run: seq<System>, acts: seq<Action>, k: nat)
    requires IsRun(run, acts) && k < |acts| && JobsAwake(run[k])
    ensures JobsAwake(run[k + 1]) <==> KeepsJobWake(run[k], acts[k])
  {
    InvOnRuns(run, acts, k);
    RunStep(run, acts, k);
    JobWakeKeptIff(run[k], acts[k], run[k + 1]);
  }

  /**
   Throughout a run queued jobs of a container work queue have a thread on its way, if and
   only if, while jobs are queued and no such thread is under way, no cancel leaves no live
   task and no schedule puts the timeout off, and no last thread finds the queue busy.
   */
  lemma {:induction false} JobsAwakeIff(run: seq<System>, acts: seq<Action>, n: nat)
    requires IsRun(run, acts) && n <= |acts|
    ensures JobsAwakeUpTo(run, n) <==> WakeKeptUpTo(run, acts, n)
    decreases n
  {
    if n > 0 {
      JobsAwakeIff(run, acts, n - 1);
      if JobsAwakeUpTo(run, n - 1) {
        JobWakeRunStep(run, acts, n - 1);
      }
    }
  }

  /**
   In every run, when a task's turn comes it runs if and only if it has not been
   cancelled since it was scheduled, whoever cancelled it, and its deadline has passed.
   */
  lemma RunsIffNotCancelled(run: seq<System>, acts: seq<Action>, i: nat, k: nat)
    requires IsRun(run, acts) && i < |run|
    requires k < |run[i].log| && run[i].log[k].Turn?
    ensures var e := run[i].log[k];
      && (e.ran <==> !CancelledBefore(run[i].log, e.item.handle, k))
      && e.item.time <= run[i].clock
      && Added(e.item.handle) in run[i].log
  {
    InvOnRuns(run, acts, i);
    assert TurnFiled(run[i], k);
  }

  /** In every run no handle has two turns, and the turns of one batch are in deadline order. */
  lemma TurnsInOrderNeverTwice(run: seq<System>, acts: seq<Action>, i: nat, j: nat, k: nat)
    requires IsRun(run, acts) && i < |run|
    requires j < k < |run[i].log| && run[i].log[j].Turn? && run[i].log[k].Turn?
    ensures run[i].log[j].item.handle != run[i].log[k].item.handle
    ensures run[i].log[j].batch == run[i].log[k].batch ==> run[i].log[j].item.time <= run[i].log[k].item.time
  {
    InvOnRuns(run, acts, i);
  }

  /**
   In every run each scheduled handle is accounted for: it waits in the heap, is in a
   batch still to be executed, has had its turn, or was cancelled.
   */
  lemma NothingIsLost(run: seq<System>, acts: seq<Action>, i: nat, h: nat)
    requires IsRun(run, acts) && i < |run|
    requires Added(h) in run[i].log
    ensures var s := run[i];
      && h in s.book && s.book[h].handle == h
      && (s.book[h] in s.timers.deferred
          || (exists b :: 0 <= b < |s.batches| && s.book[h] in s.batches[b])
          || HasTurn(s.log, h)
          || CancelledBefore(s.log, h, |s.log|))
  {
    InvOnRuns(run, acts, i);
    var s := run[i];
    if s.place[h] != Finished && !CancelledBefore(s.log, h, |s.log|) {
      assert Held(s, h);
      if s.place[h].Taken? {
        assert s.book[h] in s.batches[s.place[h].batch];
      }
    }
  }

  /**
   No lost wake-up: in every run, for every live task in the heap a timeout event is
   outstanding or the timeout is armed no later than the deadline (than now, for a
   deadline in the past), plus the age of the oldest clock sample an extraction has used.
   */
  lemma NoLostWakeUp(run: seq<System>, acts: seq<Action>, i: nat, x: Scheduled)
    requires IsRun(run, acts) && i < |run|
    requires x in run[i].timers.deferred && x.handle in run[i].timers.active
    ensures WakesBy(run[i], Max(x.time, run[i].clock) + run[i].slack)
  {
    InvOnRuns(run, acts, i);
    var d := run[i].timers.deferred;
    var j :| 0 <= j < |d| && d[j] == x;
  }

  /**
   Nor is a wake-up early: whenever scheduling or extracting leaves tasks in the heap, the
   timeout is armed for the earliest deadline of all, or for now if that has passed, as long
   as that is less than 2^32 ms ahead, moved on by the age of the clock sample used.
   */
  lemma ArmedForEarliest(run: seq<System>, acts: seq<Action>, i: nat) returns (x: Scheduled)
    requires IsRun(run, acts) && i < |acts| && (acts[i].Schedule? || acts[i].Extract?)
    requires run[i + 1].timers.deferred != []
    ensures x in run[i + 1].timers.deferred
    ensures forall y :: y in run[i + 1].timers.deferred ==> x.time <= y.time
    ensures var age := if acts[i].Extract? then run[i].clock - acts[i].sample else 0;
      x.time - run[i].clock + age < 0x1_0000_0000 ==>
        run[i + 1].timers.armed == Some(Max(x.time + age, run[i].clock))
  {
    RunStep(run, acts, i);
    var d := run[i + 1].timers.deferred;
    x := d[0];
    forall y | y in d ensures x.time <= y.time {
      var j :| 0 <= j < |d| && d[j] == y;
      assert IsHeap(d, |d|);
      FrontIsEarliest(d, |d|, j);
    }
  }

  /** With every clock sample taken inside its critical section the wake-up is never late. */
  lemma {:induction false} FreshSamplesLeaveNoSlack(run: seq<System>, acts: seq<Action>, i: nat)
    requires IsRun(run, acts) && i < |run|
    requires forall k {:trigger acts[k]} :: 0 <= k < |acts| ==> FreshSample(run[k], acts[k])
    ensures run[i].slack == 0
    decreases i
  {
    if i > 0 {
      FreshSamplesLeaveNoSlack(run, acts, i - 1);
      SlackRunStep(run, acts, i - 1);
    }
  }

  predicate FreshSample(s: System, a: Action) {
    a.Extract? ==> a.sample == s.clock
  }

  lemma SlackStep(s: System, a: Action, s': System)
    requires Next(s, a, s') && FreshSample(s, a)
    ensures s'.slack == s.slack
  {
  }

  lemma SlackRunStep(run: seq<System>, acts: seq<Action>, k: nat)
    requires IsRun(run, acts) && k < |acts| && FreshSample(run[k], acts[k])
    ensures run[k + 1].slack == run[k].slack
  {
    RunStep(run, acts, k);
    SlackStep(run[k], acts[k], run[k + 1]);
  }

  /**
   A container work queue can lose its wake-up: a job is added, then any handle is
   cancelled while no task is live, and the timeout that `add` had set is gone.
   */
  lemma CancelStrandsAJob() returns (run: seq<System>, acts: seq<Action>)
    ensures IsRun(run, acts)
    ensures !JobsAwake(run[|run| - 1])
  {
    var armed := START.(timers := START.timers.(armed := Some(0)), jobs := 1);
    var stranded := START.(jobs := 1, log := [Cancelled(7)]);
    run, acts := [START, armed, stranded], [AddJob, Cancel(7)];
    assert Next(START, AddJob, armed);
    assert Next(armed, Cancel(7), stranded);
  }

  // ---------- The plain map the scheduler implements ----------

  /** The live tasks, as a plain map from handle to task. */
  function Pending(s: System): map<nat, Scheduled> {
    map h | h in s.timers.active && h in s.book :: s.book[h]
  }

  /** One step of the plain map: add a fresh entry, remove one, run a due one, or nothing. */
  ghost predicate SpecNext(p: map<nat, Scheduled>, p': map<nat, Scheduled>,
      clock: int, a: Action, ran: Option<Scheduled>)
  {
    match a
    case Schedule(delay, task) =>
      ran == None && exists h :: h !in p && p' == p[h := Scheduled(clock + delay, task, h)]
    case Cancel(h) => ran == None && p' == p - {h}
    case TakeTurn(_) =>
      if ran.Some? then ran.value.handle in p && p[ran.value.handle] == ran.value
                        && ran.value.time <= clock && p' == p - {ran.value.handle}
      else p' == p
    case _ => ran == None && p' == p
  }

  /** The task a step runs, if it runs one. */
  function RanIn(s: System, s': System): Option<Scheduled> {
    if |s.log| < |s'.log| && s'.log[|s.log|].Turn? && s'.log[|s.log|].ran then Some(s'.log[|s.log|].item) else None
  }

  lemma ScheduleRefines(s: System, delay: int, task: nat, s': System)
    requires Placement(s) && NextSchedule(s, delay, task, s')
    ensures SpecNext(Pending(s), Pending(s'), s.clock, Schedule(delay, task), None)
  {
    var h := s.timers.next;
    assert h !in Pending(s);
    assert Pending(s') == Pending(s)[h := Scheduled(s.clock + delay, task, h)];
  }

  lemma CancelRefines(s: System, h: nat, s': System)
    requires NextCancel(s, h, s')
    ensures Pending(s') == Pending(s) - {h}
  {
  }

  lemma TurnRefines(s: System, b: nat, s': System)
    requires Placement(s) && NextTurn(s, b, s')
    ensures SpecNext(Pending(s), Pending(s'), s.clock, TakeTurn(b), RanIn(s, s'))
  {
    TurnOfFiled(s, b);
    assert BatchFiled(s, b);
    var item := Last(s.batches[b]);
    assert s'.log[|s.log|] == Turn(b, item, item.handle in s.timers.active);
    assert Pending(s').Keys == Pending(s).Keys - {item.handle};
    assert Pending(s') == Pending(s) - {item.handle};
  }

  lemma OtherRefines(s: System, a: Action, s': System)
    requires Next(s, a, s') && !a.Schedule? && !a.Cancel? && !a.TakeTurn?
    ensures Pending(s') == Pending(s) && s'.log == s.log
  {
  }

  /** Every step of every run is a step of the plain map. */
  lemma RefinesPlainMap(run: seq<System>, acts: seq<Action>, i: nat)
    requires IsRun(run, acts) && i < |acts|
    ensures SpecNext(Pending(run[i]), Pending(run[i + 1]), run[i].clock, acts[i], RanIn(run[i], run[i + 1]))
  {
    assert Placement(run[i]) by { InvOnRuns(run, acts, i); }
    RunStep(run, acts, i);
    StepRefines(run[i], acts[i], run[i + 1]);
  }

  lemma StepRefines(s: System, a: Action, s': System)
    requires Placement(s) && Next(s, a, s')
    ensures SpecNext(Pending(s), Pending(s'), s.clock, a, RanIn(s, s'))
  {
    match a
    case Schedule(delay, task) =>
      assert s'.log[|s.log|].Added?;
      ScheduleRefines(s, delay, task, s');
    case Cancel(h) =>
      assert s'.log[|s.log|].Cancelled?;
      CancelRefines(s, h, s');
    case TakeTurn(b) => TurnRefines(s, b, s');
    case _ => OtherRefines(s, a, s');
  }
}
