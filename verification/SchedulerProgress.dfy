/**
 Progress of the scheduler: from every reachable state the library and the clock alone,
 with tasks that do nothing, can bring every live task to its turn, and it then runs.
 */
module SchedulerProgress {
  import opened Common
  import opened Heap
  import opened Scheduler
  import opened SchedulerRuns

  /** Steps of the clock, the proactor and the threads inside `run_timer_jobs`. */
  predicate ByLibrary(a: Action) {
    a.Tick? || a.Expire? || a.Deliver? || a.Extract? || a.TakeTurn?
  }

  /** The second run goes on from the first by such steps. */
  ghost predicate GoesOn(run: seq<System>, acts: seq<Action>, run': seq<System>, acts': seq<Action>) {
    && IsRun(run, acts) && IsRun(run', acts') && acts <= acts'
    && forall k :: |acts| <= k < |acts'| ==> ByLibrary(acts'[k])
  }

  function LastOf(run: seq<System>): System
    requires run != []
  {
    run[|run| - 1]
  }

  lemma Extended(run: seq<System>, acts: seq<Action>, a: Action, s: System)
    returns (run': seq<System>, acts': seq<Action>)
    requires IsRun(run, acts) && Next(LastOf(run), a, s) && ByLibrary(a)
    ensures GoesOn(run, acts, run', acts') && LastOf(run') == s
  {
    run', acts' := run + [s], acts + [a];
    forall i | 0 <= i < |acts'| ensures StepsAt(run', acts', i) {
      if i < |acts| {
        assert StepsAt(run, acts, i);
      }
    }
  }

  lemma GoesOnTwice(r0: seq<System>, a0: seq<Action>,
      r1: seq<System>, a1: seq<Action>, r2: seq<System>, a2: seq<Action>)
    requires GoesOn(r0, a0, r1, a1) && GoesOn(r1, a1, r2, a2)
    ensures GoesOn(r0, a0, r2, a2)
  {
    forall k | |a0| <= k < |a2| ensures ByLibrary(a2[k]) {
      if k < |a1| {
        assert a2[k] == a1[k];
      }
    }
  }

  // ---------- A heap can always be divided ----------

  ghost predicate Ascending(s: seq<Scheduled>) {
    forall i, j :: 0 <= i < j < |s| ==> s[i].time <= s[j].time
  }

  lemma AscendingIsHeap(s: seq<Scheduled>)
    requires Ascending(s)
    ensures IsHeap(s, |s|)
  {
    forall i {:trigger Parent(i)} | 0 < i < |s| ensures !Less(s[Parent(i)], s[i]) {
      assert Parent(i) < i;
    }
  }

  lemma {:induction false} InsertedAscending(s: seq<Scheduled>, x: Scheduled) returns (r: seq<Scheduled>)
    requires Ascending(s)
    ensures Ascending(r) && multiset(r) == multiset(s) + multiset{x}
    ensures forall y :: y in r <==> y in s || y == x
  {
    if s == [] || s[|s| - 1].time <= x.time {
      r := s + [x];
    } else {
      var init, last := s[..|s| - 1], s[|s| - 1];
      assert s == init + [last];
      var q := InsertedAscending(init, x);
      r := q + [last];
      forall y | y in q ensures y.time <= last.time {
        assert y == x || y in init;
      }
    }
  }

  function Reversed(s: seq<Scheduled>): seq<Scheduled> {
    seq(|s|, i requires 0 <= i < |s| => s[|s| - 1 - i])
  }

  lemma {:induction false} ReversedContents(s: seq<Scheduled>)
    ensures multiset(Reversed(s)) == multiset(s)
  {
    if s != [] {
      var init, last := s[..|s| - 1], s[|s| - 1];
      ReversedContents(init);
      assert s == init + [last];
      assert Reversed(s) == [last] + Reversed(init);
    } else {
      assert Reversed(s) == [];
    }
  }

  /** The tasks of any sequence, split by the clock and each part in ascending order. */
  lemma {:induction false} SplitAscending(s: seq<Scheduled>, now: int)
    returns (kept: seq<Scheduled>, due: seq<Scheduled>)
    ensures Ascending(kept) && Ascending(due) && AllFuture(kept, now) && AllDue(due, now)
    ensures multiset(kept) + multiset(due) == multiset(s)
  {
    if s == [] {
      kept, due := [], [];
    } else {
      var init, x := s[..|s| - 1], s[|s| - 1];
      assert s == init + [x];
      kept, due := SplitAscending(init, now);
      if x.time <= now {
        due := InsertedWithin(due, x, now);
      } else {
        kept := InsertedBeyond(kept, x, now);
      }
    }
  }

  lemma InsertedWithin(s: seq<Scheduled>, x: Scheduled, now: int) returns (r: seq<Scheduled>)
    requires Ascending(s) && AllDue(s, now) && x.time <= now
    ensures Ascending(r) && AllDue(r, now) && multiset(r) == multiset(s) + multiset{x}
  {
    r := InsertedAscending(s, x);
    forall i | 0 <= i < |r| ensures r[i].time <= now {
      assert r[i] in r;
    }
  }

  lemma InsertedBeyond(s: seq<Scheduled>, x: Scheduled, now: int) returns (r: seq<Scheduled>)
    requires Ascending(s) && AllFuture(s, now) && now < x.time
    ensures Ascending(r) && AllFuture(r, now) && multiset(r) == multiset(s) + multiset{x}
  {
    r := InsertedAscending(s, x);
    forall i | 0 <= i < |r| ensures now < r[i].time {
      assert r[i] in r;
    }
  }

  lemma DivisionExists(s: seq<Scheduled>, now: int) returns (kept: seq<Scheduled>, tasks: seq<Scheduled>)
    ensures Divides(s, kept, tasks, now)
  {
    var due;
    kept, due := SplitAscending(s, now);
    AscendingIsHeap(kept);
    tasks := Reversed(due);
    ReversedContents(due);
  }

  // ---------- From the heap to a batch ----------

  /** The state differs only in the clock and in where the proactor's timeout stands. */
  ghost predicate SameTasks(s: System, s': System) {
    && s'.timers.deferred == s.timers.deferred && s'.timers.active == s.timers.active
    && s'.batches == s.batches && s'.book == s.book && s.clock <= s'.clock
  }

  /** A thread comes to handle a timeout no earlier than the deadline. */
  lemma ThreadComes(run: seq<System>, acts: seq<Action>, x: Scheduled) returns (run': seq<System>, acts': seq<Action>)
    requires IsRun(run, acts) && x in LastOf(run).timers.deferred && x.handle in LastOf(run).timers.active
    ensures GoesOn(run, acts, run', acts') && SameTasks(LastOf(run), LastOf(run'))
    ensures 0 < LastOf(run').handling && x.time <= LastOf(run').clock
  {
    var s := LastOf(run);
    NoLostWakeUp(run, acts, |run| - 1, x);
    var s1 := s.(clock := Max(x.time, s.clock) + s.slack);
    run', acts' := Extended(run, acts, Tick(s1.clock), s1);
    if s.handling == 0 {
      var r1, a1 := run', acts';
      var s2 := if s1.timers.due then s1 else s1.(timers := s1.timers.(armed := None, due := true));
      if !s1.timers.due {
        run', acts' := Extended(r1, a1, Expire, s2);
        GoesOnTwice(run, acts, r1, a1, run', acts');
      }
      var r2, a2 := run', acts';
      run', acts' := Extended(r2, a2, Deliver, s2.(timers := s2.timers.(due := false), handling := s2.handling + 1));
      GoesOnTwice(run, acts, r2, a2, run', acts');
    }
  }

  /** Where the extraction leaves everything. */
  function Extraction(s: System, kept: seq<Scheduled>, tasks: seq<Scheduled>): System
    requires 0 < s.handling
  {
    s.(timers := s.timers.(deferred := kept,
                           armed := if kept == [] then s.timers.armed
                               else Some(s.clock + Millis(kept[0].time - s.clock))),
       batches := s.batches + [tasks],
       handling := s.handling - 1,
       sweeping := s.sweeping + 1,
       place := Taking(s.place, tasks, |s.batches|))
  }

  lemma ExtractionSteps(s: System, kept: seq<Scheduled>, tasks: seq<Scheduled>)
    requires 0 < s.handling && Divides(s.timers.deferred, kept, tasks, s.clock)
    ensures NextExtract(s, s.clock, tasks, Extraction(s, kept, tasks))
  {
  }

  lemma DueIsTaken(s: seq<Scheduled>, kept: seq<Scheduled>, tasks: seq<Scheduled>, now: int, x: Scheduled)
    requires Divides(s, kept, tasks, now) && x in s && x.time <= now
    ensures x in tasks
  {
    assert x in multiset(s);
    assert x in multiset(kept) || x in multiset(tasks);
    assert x !in kept;
  }

  lemma TaskIsTaken(run: seq<System>, acts: seq<Action>, x: Scheduled)
    returns (run': seq<System>, acts': seq<Action>, b: nat)
    requires IsRun(run, acts) && x in LastOf(run).timers.deferred && x.handle in LastOf(run).timers.active
    ensures GoesOn(run, acts, run', acts') && b < |LastOf(run').batches|
    ensures x in LastOf(run').batches[b] && x.handle in LastOf(run').timers.active
  {
    var r1, a1 := ThreadComes(run, acts, x);
    var s := LastOf(r1);
    var kept, tasks := DivisionExists(s.timers.deferred, s.clock);
    ExtractionSteps(s, kept, tasks);
    DueIsTaken(s.timers.deferred, kept, tasks, s.clock, x);
    run', acts' := Extended(r1, a1, Extract(s.clock, tasks), Extraction(s, kept, tasks));
    GoesOnTwice(run, acts, r1, a1, run', acts');
    b := |s.batches|;
  }

  // ---------- From a batch to its turn ----------

  function TurnTaken(s: System, b: nat): System
    requires b < |s.batches| && s.batches[b] != []
  {
    var item := Last(s.batches[b]);
    s.(timers := s.timers.(active := s.timers.active - {item.handle}),
       batches := s.batches[b := s.batches[b][..|s.batches[b]| - 1]],
       place := s.place[item.handle := Finished],
       log := s.log + [Turn(b, item, item.handle in s.timers.active)])
  }

  /** Items of one batch have different handles. */
  lemma OtherHandle(s: System, b: nat, x: Scheduled, y: Scheduled)
    requires b < |s.batches| && BatchFiled(s, b) && x in s.batches[b] && y in s.batches[b] && x != y
    ensures x.handle != y.handle
  {
    assert x in multiset(s.batches[b]) && y in multiset(s.batches[b]);
    assert Filed(s, x, Taken(b)) && Filed(s, y, Taken(b));
  }

  /** The last event of a run is a turn at which the task ran. */
  ghost predicate HasRun(run: seq<System>, x: Scheduled)
    requires run != []
  {
    var log := LastOf(run).log;
    log != [] && log[|log| - 1].Turn? && log[|log| - 1].item == x && log[|log| - 1].ran
  }

  lemma {:induction false} TurnComes(run: seq<System>, acts: seq<Action>, b: nat, x: Scheduled)
    returns (run': seq<System>, acts': seq<Action>)
    requires IsRun(run, acts) && b < |LastOf(run).batches| && x in LastOf(run).batches[b]
    requires x.handle in LastOf(run).timers.active
    ensures GoesOn(run, acts, run', acts') && HasRun(run', x)
    decreases |LastOf(run).batches[b]|
  {
    var s := LastOf(run);
    var item := Last(s.batches[b]);
    run', acts' := Extended(run, acts, TakeTurn(b), TurnTaken(s, b));
    if item != x {
      assert BatchFiled(s, b) by { InvOnRuns(run, acts, |run| - 1); }
      OtherHandle(s, b, x, item);
      assert s.batches[b] == s.batches[b][..|s.batches[b]| - 1] + [item];
      var r1, a1 := run', acts';
      run', acts' := TurnComes(r1, a1, b, x);
      GoesOnTwice(run, acts, r1, a1, run', acts');
    }
  }

  /**
   From every reachable state, for every live handle: the clock, the proactor and the threads
   that run timer jobs can go on, with no help from the application, so that its task has its
   turn and runs.
   */
  lemma EveryLiveTaskCanRun(run: seq<System>, acts: seq<Action>, h: nat)
    returns (run': seq<System>, acts': seq<Action>)
    requires IsRun(run, acts) && h in LastOf(run).timers.active
    ensures h in LastOf(run).book
    ensures GoesOn(run, acts, run', acts') && HasRun(run', LastOf(run).book[h])
  {
    var s := LastOf(run);
    assert Placement(s) by { InvOnRuns(run, acts, |run| - 1); }
    assert Held(s, h) && s.place[h] != Finished;
    var x := s.book[h];
    if s.place[h].Taken? {
      assert x in multiset(s.batches[s.place[h].batch]);
      run', acts' := TurnComes(run, acts, s.place[h].batch, x);
    } else {
      assert x in multiset(s.timers.deferred);
      var r1, a1, b := TaskIsTaken(run, acts, x);
      run', acts' := TurnComes(r1, a1, b, x);
      GoesOnTwice(run, acts, r1, a1, run', acts');
    }
  }
}
