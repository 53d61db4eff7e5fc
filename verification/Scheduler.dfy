/**
 The timer scheduler of the C++ container: a vector kept as a heap of deadlines, beside
 a separate set of live handles, and the one timeout of the proactor underneath.

 The three critical sections (`schedule`, `cancel`, the extraction part of
 `run_timer_jobs`) and the per-task liveness test are methods of `Container`. Each is
 proved against a relation on `Timers` values; `SchedulerRuns` then reasons about every
 interleaving of those relations.
 */
module Scheduler {
  import opened Common
  import opened Heap

  /**
   Everything `deferred_lock_` protects, and the proactor's timeout: `armed` is the
   absolute time of the armed timeout, `due` says that the timeout has expired and its
   event has not been handed to a thread yet.
   */
  datatype Timers = Timers(deferred: seq<Scheduled>, active: set<nat>, next: nat,
                           armed: Option<int>, due: bool)

  /** Conversion of a 64-bit duration to the unsigned 32-bit `pn_millis_t`. */
  function Millis(ms: int): (r: int)
    ensures 0 <= r < 0x1_0000_0000
    ensures 0 <= ms ==> r <= ms
    ensures 0 <= ms < 0x1_0000_0000 ==> r == ms
  {
    ms % 0x1_0000_0000
  }

  /** When a timeout set at `now` for the deadline `time` will expire. */
  function Alarm(now: int, time: int): int {
    if now < time then now + Millis(time - now) else now
  }

  ghost predicate Descending(s: seq<Scheduled>) {
    forall i, j :: 0 <= i < j < |s| ==> s[j].time <= s[i].time
  }

  ghost predicate AllDue(s: seq<Scheduled>, now: int) {
    forall i :: 0 <= i < |s| ==> s[i].time <= now
  }

  ghost predicate AllFuture(s: seq<Scheduled>, now: int) {
    forall i :: 0 <= i < |s| ==> now < s[i].time
  }

  /** The effect of `schedule`: a fresh live handle, and a timeout for the new front. */
  ghost predicate Schedules(t: Timers, t': Timers, now: int, delay: int, task: nat, h: nat) {
    && h == t.next
    && IsHeap(t'.deferred, |t'.deferred|)
    && multiset(t'.deferred) == multiset(t.deferred) + multiset{Scheduled(now + delay, task, h)}
    && 0 < |t'.deferred|
    && t'.active == t.active + {h}
    && t'.next == t.next + 1
    && t'.armed == Some(Alarm(now, t'.deferred[0].time))
    && t'.due == t.due
  }

  /** The effect of `cancel`: the entry stays in the heap, only its liveness goes. */
  ghost predicate Cancels(t: Timers, t': Timers, h: nat) {
    && t'.deferred == t.deferred
    && t'.next == t.next
    && t'.active == t.active - {h}
    && (t'.active != {} ==> t'.armed == t.armed && t'.due == t.due)
    && (t'.active == {} ==> t'.armed == None && !t'.due)
  }

  /** The tasks due by `now` are taken, latest deadline first, and the others are kept as a heap. */
  ghost predicate Divides(s: seq<Scheduled>, kept: seq<Scheduled>, tasks: seq<Scheduled>, now: int) {
    && multiset(kept) + multiset(tasks) == multiset(s)
    && IsHeap(kept, |kept|)
    && Descending(tasks)
    && AllDue(tasks, now)
    && AllFuture(kept, now)
  }

  /**
   The effect of the extraction in `run_timer_jobs`, with `sample` the clock read before
   the lock is taken and `clock` the time inside it: `tasks` is exactly the due part of
   the heap, latest deadline first, and the timeout is set for what is left. The caller
   executes `tasks` from its end.
   */
  ghost predicate Extracts(t: Timers, t': Timers, sample: int, clock: int, tasks: seq<Scheduled>) {
    && Divides(t.deferred, t'.deferred, tasks, sample)
    && t'.active == t.active
    && t'.next == t.next
    && t'.due == t.due
    && t'.armed == if t'.deferred == [] then t.armed
                   else Some(clock + Millis(t'.deferred[0].time - sample))
  }

  /** The effect of one task's turn: the handle is erased, and the task runs if it was live. */
  ghost predicate TakesTurn(t: Timers, t': Timers, h: nat, runs: bool) {
    && t' == t.(active := t.active - {h})
    && runs == (h in t.active)
  }

  /**
   The state of the extraction loop after some pops: the first `n` places of the vector
   are a heap, the rest holds due tasks latest first, none later than what is left.
   */
  ghost predicate PartlySorted(original: seq<Scheduled>, s: seq<Scheduled>, n: nat, now: int) {
    && IsHeap(s, n)
    && multiset(s) == multiset(original)
    && (forall i, j :: n <= i < j < |s| ==> s[j].time <= s[i].time)
    && (forall i :: n <= i < |s| ==> s[i].time <= now)
    && (n < |s| ==> forall i :: 0 <= i < n ==> s[n].time <= s[i].time)
  }

  /** Popping the front, when it is due, extends the sorted part by one. */
  lemma PopExtendsSortedPart(original: seq<Scheduled>, s: seq<Scheduled>, r: seq<Scheduled>, n: nat, now: int)
    requires 0 < n && PartlySorted(original, s, n, now)
    requires s[0].time <= now
    requires IsHeap(r, n - 1) && |r| == |s| && r[n - 1] == s[0] && multiset(r) == multiset(s)
    requires forall k :: n <= k < |s| ==> r[k] == s[k]
    requires forall k :: 0 <= k < n ==> s[0].time <= r[k].time
    ensures PartlySorted(original, r, n - 1, now)
  {
  }

  /** One pop of the extraction loop. */
  method PopNext(ghost original: seq<Scheduled>, s: seq<Scheduled>, n: nat, now: int)
    returns (r: seq<Scheduled>)
    requires 0 < n && PartlySorted(original, s, n, now)
    requires s[0].time <= now
    ensures |r| == |s|
    ensures PartlySorted(original, r, n - 1, now)
  {
    r := PopHeap(s, n);
    PopExtendsSortedPart(original, s, r, n, now);
  }

  /**
   The loop that decides how many tasks are due: it pops them to the back of the vector
   and stops at the first deadline in the future.
   */
  method SortDue(s: seq<Scheduled>, now: int) returns (r: seq<Scheduled>, i: nat)
    requires IsHeap(s, |s|)
    ensures i <= |r| == |s|
    ensures PartlySorted(s, r, |r| - i, now)
    ensures i < |r| ==> now < r[0].time
  {
    r, i := s, 0;
    while |r| - i != 0 && r[0].time <= now
      invariant i <= |r| == |s|
      invariant PartlySorted(s, r, |r| - i, now)
    {
      r := PopNext(s, r, |r| - i, now);
      i := i + 1;
    }
  }

  lemma SplitKeepsContents(s: seq<Scheduled>, n: nat)
    requires n <= |s|
    ensures multiset(s[..n]) + multiset(s[n..]) == multiset(s)
  {
    assert s == s[..n] + s[n..];
  }

  lemma SplitAtEnds(s: seq<Scheduled>)
    ensures s[0..] == s && s[..0] == [] && s[|s|..] == [] && s[..|s|] == s
  {
  }

  lemma KeptPartIsFutureHeap(s: seq<Scheduled>, n: nat, now: int)
    requires IsHeap(s, n)
    requires 0 < n ==> now < s[0].time
    ensures AllFuture(s[..n], now) && IsHeap(s[..n], n)
  {
    forall k | 0 <= k < n ensures now < s[..n][k].time {
      FrontIsEarliest(s, n, k);
    }
  }

  lemma TakenPartIsDue(original: seq<Scheduled>, s: seq<Scheduled>, n: nat, now: int)
    requires PartlySorted(original, s, n, now)
    ensures Descending(s[n..]) && AllDue(s[n..], now)
  {
  }

  /** What the loop leaves behind splits into the tasks to run and the heap to keep. */
  lemma SplitIsExtraction(original: seq<Scheduled>, s: seq<Scheduled>, n: nat, now: int,
                          kept: seq<Scheduled>, tasks: seq<Scheduled>)
    requires PartlySorted(original, s, n, now)
    requires 0 < n ==> now < s[0].time
    requires kept == s[..n] && tasks == s[n..]
    ensures Divides(original, kept, tasks, now)
  {
    SplitKeepsContents(s, n);
    KeptPartIsFutureHeap(s, n, now);
    TakenPartIsDue(original, s, n, now);
  }

  /** The two ways the source divides the vector: by swapping it whole and by copying a part. */
  method SplitDue(s: seq<Scheduled>, i: nat) returns (tasks: seq<Scheduled>, kept: seq<Scheduled>)
    requires i <= |s|
    ensures tasks == s[|s| - i..] && kept == s[..|s| - i]
  {
    SplitAtEnds(s);
    if i == 0 {
      return [], s;
    } else if i == |s| {
      return s, [];
    } else {
      return s[|s| - i..], s[..|s| - i];
    }
  }

  /** The loop and the split. */
  method TakeDue(s: seq<Scheduled>, now: int) returns (tasks: seq<Scheduled>, kept: seq<Scheduled>)
    requires IsHeap(s, |s|)
    ensures Divides(s, kept, tasks, now)
  {
    var sorted, i := SortDue(s, now);
    tasks, kept := SplitDue(sorted, i);
    SplitIsExtraction(s, sorted, |sorted| - i, now, kept, tasks);
  }

  class Container {
    var deferred: seq<Scheduled>
    var active: set<nat>
    var next: nat
    var armed: Option<int>
    var due: bool

    ghost function View(): Timers
      reads this
    {
      Timers(deferred, active, next, armed, due)
    }

    ghost predicate Valid()
      reads this
    {
      IsHeap(deferred, |deferred|)
    }

    constructor ()
      ensures Valid()
      ensures View() == Timers([], {}, 0, None, false)
    {
      deferred, active, next, armed, due := [], {}, 0, None, false;
    }

    method SetTimeout(now: int, ms: int)
      requires 0 <= ms
      modifies this`armed
      ensures armed == Some(now + ms)
    {
      armed := Some(now + ms);
    }

    method Schedule(now: int, delay: int, task: nat) returns (h: nat)
      requires Valid()
      modifies this
      ensures Valid()
      ensures Schedules(old(View()), View(), now, delay, task, h)
    {
      var s := Scheduled(now + delay, task, next);
      next := next + 1;
      deferred := deferred + [s];
      deferred := PushHeap(deferred);
      var head := deferred[0];
      SetTimeout(now, if now < head.time then Millis(head.time - now) else 0);
      active := active + {s.handle};
      h := s.handle;
    }

    method Cancel(h: nat)
      requires Valid()
      modifies this`active, this`armed, this`due
      ensures Valid()
      ensures Cancels(old(View()), View(), h)
    {
      active := active - {h};
      if active == {} {
        armed, due := None, false;
      }
    }

    /**
     The critical section of `run_timer_jobs`. `tasks` is the extracted vector, latest
     deadline first; both ways of producing it, by swapping and by copying, meet the
     same relation.
     */
    method ExtractDue(sample: int, clock: int) returns (tasks: seq<Scheduled>)
      requires Valid()
      modifies this`deferred, this`armed
      ensures Valid()
      ensures Extracts(old(View()), View(), sample, clock, tasks)
    {
      var kept;
      tasks, kept := TakeDue(deferred, sample);
      if kept != [] {
        SetTimeout(clock, Millis(kept[0].time - sample));
      }
      deferred := kept;
    }

    /** The test each extracted task makes, under the lock, just before it would run. */
    method TakeTurn(h: nat) returns (runs: bool)
      requires Valid()
      modifies this`active
      ensures Valid()
      ensures TakesTurn(old(View()), View(), h, runs)
    {
      runs := h in active;
      active := active - {h};
    }
  }
}
