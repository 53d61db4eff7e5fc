/**
 A connection's work queue: `add` from any thread, `run_all_jobs` at every event of the
 connection, and the flag that keeps two threads from running jobs of one queue at once.
 */
module WorkQueue {
  import opened Common

  /** What the queue's lock protects, and whether the connection's wake-up is pending. */
  datatype State = State(jobs: seq<nat>, finished: bool, running: bool, wake: bool)

  function AfterAdd(q: State, job: nat): State {
    if q.finished then q else q.(jobs := q.jobs + [job], wake := true)
  }

  class Queue {
    var jobs: seq<nat>
    var finished: bool
    var running: bool
    var wake: bool
    ghost var added: seq<nat>
    ghost var taken: seq<nat>

    ghost function View(): State
      reads this
    {
      State(jobs, finished, running, wake)
    }

    /** What was added is what was handed out for running and then what is queued, in order. */
    ghost predicate Valid()
      reads this
    {
      added == taken + jobs
    }

    constructor ()
      ensures Valid() && View() == State([], false, false, false) && added == [] == taken
    {
      jobs, finished, running, wake := [], false, false, false;
      added, taken := [], [];
    }

    method Add(job: nat) returns (ok: bool)
      requires Valid()
      modifies this`jobs, this`wake, this`added
      ensures Valid() && View() == AfterAdd(old(View()), job)
      ensures ok == !old(finished)
      ensures added == if ok then old(added) + [job] else old(added)
    {
      if finished {
        return false;
      }
      jobs := jobs + [job];
      wake := true;
      added := added + [job];
      assert added == taken + jobs;
      return true;
    }

    method Finished()
      requires Valid()
      modifies this`finished
      ensures Valid() && View() == old(View()).(finished := true)
    {
      finished := true;
    }

    /** The first critical section of `run_all_jobs`: take everything, unless a thread is running. */
    method Begin() returns (batch: Option<seq<nat>>)
      requires Valid()
      modifies this`jobs, this`running, this`taken
      ensures Valid()
      ensures old(running) ==> batch == None && View() == old(View()) && taken == old(taken)
      ensures !old(running) ==>
        batch == Some(old(jobs)) && View() == old(View()).(jobs := [], running := true) && taken == added
    {
      if running {
        return None;
      }
      running := true;
      batch := Some(jobs);
      taken := taken + jobs;
      jobs := [];
    }

    /** The last critical section of `run_all_jobs`. */
    method End()
      requires Valid()
      modifies this`running
      ensures Valid() && View() == old(View()).(running := false)
    {
      running := false;
    }
  }

  /** The queue with every thread inside `run_all_jobs` and, as history, what was added and run. */
  datatype System = System(queue: State, runners: map<nat, seq<nat>>, added: seq<nat>, done: seq<nat>)

  datatype Action =
    | Add(job: nat)
    | Finish
    | Enter(thread: nat, woken: bool)
    | RunOne(thread: nat)
    | Leave(thread: nat)

  const START := System(State([], false, false, false), map[], [], [])

  predicate Enabled(s: System, a: Action) {
    match a
    case Enter(t, woken) => t !in s.runners && (woken ==> s.queue.wake)
    case RunOne(t) => t in s.runners && s.runners[t] != []
    case Leave(t) => t in s.runners && s.runners[t] == []
    case _ => true
  }

  /** One step of any thread; an event that carries the wake-up consumes it. */
  function Next(s: System, a: Action): System
    requires Enabled(s, a)
  {
    match a
    case Add(job) =>
      s.(queue := AfterAdd(s.queue, job), added := if s.queue.finished then s.added else s.added + [job])
    case Finish => s.(queue := s.queue.(finished := true))
    case Enter(t, woken) =>
      var q := s.queue.(wake := s.queue.wake && !woken);
      if q.running then s.(queue := q)
      else s.(queue := q.(jobs := [], running := true), runners := s.runners[t := q.jobs])
    case RunOne(t) =>
      s.(runners := s.runners[t := s.runners[t][1..]], done := s.done + [s.runners[t][0]])
    case Leave(t) =>
      s.(runners := s.runners - {t}, queue := s.queue.(running := false))
  }

  ghost predicate StepsAt(run: seq<System>, acts: seq<Action>, k: nat)
    requires k < |acts| && |run| == |acts| + 1
  {
    Enabled(run[k], acts[k]) && run[k + 1] == Next(run[k], acts[k])
  }

  ghost predicate IsRun(run: seq<System>, acts: seq<Action>) {
    && |run| == |acts| + 1
    && run[0] == START
    && forall i :: 0 <= i < |acts| ==> StepsAt(run, acts, i)
  }

  lemma RunStep(run: seq<System>, acts: seq<Action>, k: nat)
    requires IsRun(run, acts) && k < |acts|
    ensures Enabled(run[k], acts[k]) && run[k + 1] == Next(run[k], acts[k])
  {
    assert StepsAt(run, acts, k);
  }

  /** At most one thread runs jobs, and nothing is lost, repeated or reordered. */
  ghost predicate Inv(s: System) {
    && (s.queue.running <==> s.runners != map[])
    && (s.runners == map[] ==> s.done + s.queue.jobs == s.added)
    && (forall t, u :: t in s.runners && u in s.runners ==> t == u)
    && (forall t :: t in s.runners ==> s.done + s.runners[t] + s.queue.jobs == s.added)
  }

  lemma InvKept(s: System, a: Action)
    requires Inv(s) && Enabled(s, a)
    ensures Inv(Next(s, a))
  {
    var s' := Next(s, a);
    match a
    case Add(job) =>
      assert s.runners == map[] && !s.queue.finished ==> s.done + (s.queue.jobs + [job]) == s.added + [job];
      forall t | t in s'.runners ensures s'.done + s'.runners[t] + s'.queue.jobs == s'.added {
        if !s.queue.finished {
          assert s.done + s.runners[t] + (s.queue.jobs + [job]) == s.done + s.runners[t] + s.queue.jobs + [job];
        }
      }
    case Enter(t, woken) =>
      if !s.queue.running {
        assert s'.runners.Keys == {t} && s.done + s.queue.jobs + [] == s.added;
      }
    case RunOne(t) =>
      assert s'.runners.Keys == s.runners.Keys;
      assert s.runners[t] == [s.runners[t][0]] + s.runners[t][1..];
      assert s'.done + s'.runners[t] == s.done + s.runners[t];
    case Leave(t) =>
      assert s'.runners.Keys == {};
      assert s.done + [] + s.queue.jobs == s.done + s.queue.jobs;
    case Finish =>
  }

  lemma {:induction false} InvOnRuns(run: seq<System>, acts: seq<Action>, i: nat)
    requires IsRun(run, acts) && i < |run|
    ensures Inv(run[i])
    decreases i
  {
    if i > 0 {
      InvOnRuns(run, acts, i - 1);
      RunStep(run, acts, i - 1);
      InvKept(run[i - 1], acts[i - 1]);
    }
  }

  /**
   In every run, whatever the threads do: the jobs run so far are the first ones added, in
   the order they were added, and no two threads are running jobs of the queue.
   */
  lemma JobsRunOnceInOrder(run: seq<System>, acts: seq<Action>, i: nat)
    requires IsRun(run, acts) && i < |run|
    ensures run[i].done <= run[i].added
    ensures forall t, u :: t in run[i].runners && u in run[i].runners ==> t == u
    ensures run[i].runners == map[] && run[i].queue.jobs == [] ==> run[i].done == run[i].added
  {
    InvOnRuns(run, acts, i);
    var s := run[i];
    if s.runners != map[] {
      var t :| t in s.runners;
      assert s.added == s.done + (s.runners[t] + s.queue.jobs);
    }
  }

  /** In every run the queue is finished once it has been told so, and takes no job from then on. */
  lemma {:induction false} FinishedIff(run: seq<System>, acts: seq<Action>, n: nat)
    requires IsRun(run, acts) && n <= |acts|
    ensures run[n].queue.finished <==> Finish in acts[..n]
    ensures n < |acts| && acts[n].Add? ==>
      run[n + 1].added == if Finish in acts[..n] then run[n].added else run[n].added + [acts[n].job]
    decreases n
  {
    if n > 0 {
      FinishedIff(run, acts, n - 1);
      RunStep(run, acts, n - 1);
      assert acts[..n] == acts[..n - 1] + [acts[n - 1]];
    }
    if n < |acts| {
      RunStep(run, acts, n);
    }
  }

  /** Queued jobs have a wake-up pending. */
  ghost predicate Awake(s: System) {
    s.queue.jobs != [] ==> s.queue.wake
  }

  /** An event does not use up the wake-up of queued jobs while a thread is running, which will not look again. */
  predicate KeepsWake(s: System, a: Action) {
    !(a.Enter? && a.woken && s.queue.running && s.queue.jobs != [])
  }

  lemma WakeKeptIff(s: System, a: Action)
    requires Inv(s) && Awake(s) && Enabled(s, a)
    ensures Awake(Next(s, a)) <==> KeepsWake(s, a)
  {
  }

  ghost predicate AwakeUpTo(run: seq<System>, n: nat)
    requires n < |run|
  {
    Awake(run[n]) && (n > 0 ==> AwakeUpTo(run, n - 1))
  }

  ghost predicate KeptUpTo(run: seq<System>, acts: seq<Action>, n: nat)
    requires n <= |acts| && n <= |run|
  {
    n > 0 ==> KeepsWake(run[n - 1], acts[n - 1]) && KeptUpTo(run, acts, n - 1)
  }

  /**
   Throughout a run queued jobs have a wake-up pending, if and only if no event uses it up
   while another thread is still running: that thread has taken its batch and will not look
   again.
   */
  lemma {:induction false} AwakeIff(run: seq<System>, acts: seq<Action>, n: nat)
    requires IsRun(run, acts) && n <= |acts|
    ensures AwakeUpTo(run, n) <==> KeptUpTo(run, acts, n)
    decreases n
  {
    if n > 0 {
      AwakeIff(run, acts, n - 1);
      InvOnRuns(run, acts, n - 1);
      RunStep(run, acts, n - 1);
      if AwakeUpTo(run, n - 1) {
        WakeKeptIff(run[n - 1], acts[n - 1]);
      }
    }
  }

  /** Events of one connection are handed to one thread at a time, so no job is ever stranded. */
  lemma {:induction false} SerialisedEventsKeepJobsAwake(run: seq<System>, acts: seq<Action>, i: nat)
    requires IsRun(run, acts) && i < |run|
    requires forall k :: 0 <= k < |acts| && acts[k].Enter? ==> run[k].runners == map[]
    ensures Awake(run[i])
    decreases i
  {
    if i > 0 {
      SerialisedEventsKeepJobsAwake(run, acts, i - 1);
      InvOnRuns(run, acts, i - 1);
      RunStep(run, acts, i - 1);
      WakeKeptIff(run[i - 1], acts[i - 1]);
    }
  }
}
