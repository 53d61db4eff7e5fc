/**
 The thread-safe receiver with a bounded buffer: link credit is issued only for free places
 in the buffer. User threads take messages under a lock, handlers run one at a time, and
 a taken message gives its credit back through a job on the connection's work queue.
 */
module BoundedReceiver {
  import opened Common

  const MAX_BUFFER := 100

  type Message = nat
  type Thread = nat

  datatype Job = ReceiveDone | CloseConnection

  /**
   `queue` says whether the work queue is known yet, and `running` whether it takes jobs.
   `arriving` is a message whose credit has been used and whose handler does not hold the
   lock yet. `waiting` are the threads blocked on the condition, with whether each has
   been notified.
   */
  datatype State = State(queue: bool, running: bool, closed: bool, credit: int, arriving: Option<Message>,
                         buffer: seq<Message>, jobs: seq<Job>, waiting: map<Thread, bool>)

  datatype Action =
    | Open
    | Arrive(m: Message)
    | OnMessage
    | Receive(t: Thread)
    | RunJob
    | Close
    | Finish

  /** What `receive()` does once it holds the lock. */
  datatype Received = Got(m: Message) | Blocks | Throws

  /** A job added to a work queue that has finished is discarded. */
  function Add(s: State, j: Job): State {
    if s.running then s.(jobs := s.jobs + [j]) else s
  }

  function ReceiveResult(s: State): Received {
    if s.closed then Throws
    else if !s.queue || s.buffer == [] then Blocks
    else Got(s.buffer[0])
  }

  function Take(s: State, t: Thread): State {
    var free := s.(waiting := s.waiting - {t});
    match ReceiveResult(s)
    case Throws => free
    case Blocks => s.(waiting := s.waiting[t := false])
    case Got(_) => Add(free.(buffer := s.buffer[1..]), ReceiveDone)
  }

  predicate Enabled(s: State, a: Action) {
    match a
    case Open => !s.queue && s.running
    case Arrive(_) => s.queue && s.arriving.None? && s.credit > 0
    case OnMessage => s.arriving.Some?
    case Receive(_) => true
    case RunJob => s.arriving.None? && s.jobs != []
    case Close => true
    case Finish => s.running
  }

  function Next(s: State, a: Action): State
    requires Enabled(s, a)
  {
    match a
    case Open => s.(queue := true, credit := s.credit + MAX_BUFFER)
    case Arrive(m) => s.(arriving := Some(m), credit := s.credit - 1)
    case OnMessage => s.(arriving := None, buffer := s.buffer + [s.arriving.value], waiting := NotifyAll(s.waiting))
    case Receive(t) => Take(s, t)
    case RunJob =>
      s.(jobs := s.jobs[1..], credit := s.credit + (if s.jobs[0] == ReceiveDone then 1 else 0))
    case Close =>
      if s.closed then s
      else
        var c := s.(closed := true, waiting := NotifyAll(s.waiting));
        if s.queue then Add(c, CloseConnection) else c
    case Finish => s.(running := false)
  }

  const INITIAL := State(false, true, false, 0, None, [], [], map[])

  /** The messages that have arrived and the ones returned by `receive()`, by any thread, in order. */
  datatype World = World(s: State, arrived: seq<Message>, returned: seq<Message>)

  function NextWorld(w: World, a: Action): World
    requires Enabled(w.s, a)
  {
    World(Next(w.s, a),
          if a.Arrive? then w.arrived + [a.m] else w.arrived,
          if a.Receive? && ReceiveResult(w.s).Got? then w.returned + [ReceiveResult(w.s).m] else w.returned)
  }

  ghost predicate StepsAt(run: seq<World>, acts: seq<Action>, k: nat)
    requires k < |acts| && |run| == |acts| + 1
  {
    Enabled(run[k].s, acts[k]) && run[k + 1] == NextWorld(run[k], acts[k])
  }

  ghost predicate IsRun(run: seq<World>, acts: seq<Action>) {
    && |run| == |acts| + 1
    && run[0] == World(INITIAL, [], [])
    && forall i :: 0 <= i < |acts| ==> StepsAt(run, acts, i)
  }

  lemma RunStep(run: seq<World>, acts: seq<Action>, k: nat)
    requires IsRun(run, acts) && k < |acts|
    ensures Enabled(run[k].s, acts[k]) && run[k + 1] == NextWorld(run[k], acts[k])
  {
    assert StepsAt(run, acts, k);
  }

  function Dones(jobs: seq<Job>): nat {
    if jobs == [] then 0 else (if jobs[0] == ReceiveDone then 1 else 0) + Dones(jobs[1..])
  }

  /** Places spoken for: credit with the peer, a message on its way, buffered messages and credit on its way back. */
  function Places(s: State): int {
    s.credit + (if s.arriving.Some? then 1 else 0) + |s.buffer| + Dones(s.jobs)
  }

  ghost predicate Bounded(s: State) {
    && (!s.queue ==> s.credit == 0 && s.arriving.None? && s.buffer == [] && s.jobs == [])
    && 0 <= s.credit
    && (s.queue ==> Places(s) <= MAX_BUFFER)
    && (s.queue && s.running ==> Places(s) == MAX_BUFFER)
  }

  /** No thread sleeps on a message or on a close that it has not been told about. */
  ghost predicate NoneAsleep(s: State) {
    forall t :: t in s.waiting && !s.waiting[t] ==> s.buffer == [] && !s.closed
  }

  ghost predicate Conserved(w: World) {
    w.arrived == w.returned + w.s.buffer + (if w.s.arriving.Some? then [w.s.arriving.value] else [])
  }

  lemma {:induction false} DonesAppend(jobs: seq<Job>, j: Job)
    ensures Dones(jobs + [j]) == Dones(jobs) + (if j == ReceiveDone then 1 else 0)
  {
    if jobs == [] {
      assert [j][1..] == [];
    } else {
      DonesAppend(jobs[1..], j);
      assert (jobs + [j])[1..] == jobs[1..] + [j];
    }
  }

  lemma BoundedKept(s: State, a: Action)
    requires Bounded(s) && Enabled(s, a)
    ensures Bounded(Next(s, a))
  {
    DonesAppend(s.jobs, ReceiveDone);
    DonesAppend(s.jobs, CloseConnection);
  }

  lemma NoneAsleepKept(s: State, a: Action)
    requires NoneAsleep(s) && Bounded(s) && Enabled(s, a)
    ensures NoneAsleep(Next(s, a))
  {
  }

  lemma ConservedKept(w: World, a: Action)
    requires Conserved(w) && Enabled(w.s, a)
    ensures Conserved(NextWorld(w, a))
  {
    if a.Receive? && ReceiveResult(w.s).Got? {
      assert w.s.buffer == [w.s.buffer[0]] + w.s.buffer[1..];
    }
  }

  /** What the object below keeps. */
  ghost predicate Sound(s: State) {
    Bounded(s) && NoneAsleep(s)
  }

  lemma SoundStep(s: State, a: Action)
    requires Sound(s) && Enabled(s, a)
    ensures Sound(Next(s, a))
  {
    BoundedKept(s, a);
    NoneAsleepKept(s, a);
  }

  lemma SoundRunStep(run: seq<World>, acts: seq<Action>, k: nat)
    requires IsRun(run, acts) && k < |acts| && Sound(run[k].s) && Conserved(run[k])
    ensures Sound(run[k + 1].s) && Conserved(run[k + 1])
  {
    RunStep(run, acts, k);
    SoundStep(run[k].s, acts[k]);
    ConservedKept(run[k], acts[k]);
  }

  lemma {:induction false} InvOnRuns(run: seq<World>, acts: seq<Action>, i: nat)
    requires IsRun(run, acts) && i < |run|
    ensures Sound(run[i].s) && Conserved(run[i])
    decreases i
  {
    if i > 0 {
      InvOnRuns(run, acts, i - 1);
      SoundRunStep(run, acts, i - 1);
    }
  }

  /**
   Under any interleaving of any number of threads, once the receiver is open and until its
   connection ends, link credit, buffered messages, messages on their way in and credit on
   its way back add up to the buffer size; the buffer never exceeds it, before or after.
   */
  lemma BufferIsBounded(run: seq<World>, acts: seq<Action>, i: nat)
    requires IsRun(run, acts) && i < |run|
    ensures run[i].s.queue && run[i].s.running ==> Places(run[i].s) == MAX_BUFFER
    ensures |run[i].s.buffer| <= MAX_BUFFER == 100
    ensures 0 <= run[i].s.credit <= MAX_BUFFER
  {
    InvOnRuns(run, acts, i);
  }

  /** Messages are returned in the order in which they arrived, each one once and to one thread. */
  lemma ReturnedInOrder(run: seq<World>, acts: seq<Action>, i: nat)
    requires IsRun(run, acts) && i < |run|
    ensures run[i].returned <= run[i].arrived
    ensures |run[i].arrived| - |run[i].returned| <= MAX_BUFFER
  {
    InvOnRuns(run, acts, i);
  }

  /** A thread that waits without having been notified could not proceed if it looked. */
  lemma NoLostNotify(run: seq<World>, acts: seq<Action>, i: nat, t: Thread)
    requires IsRun(run, acts) && i < |run| && t in run[i].s.waiting && !run[i].s.waiting[t]
    ensures ReceiveResult(run[i].s) == Blocks
  {
    InvOnRuns(run, acts, i);
  }

  // ---------- What a call does ----------

  /** The messages handed in so far, of which the rest is still on its way. */
  function HandedIn(acts: seq<Action>, n: nat): nat
    requires n <= |acts|
  {
    if n == 0 then 0 else HandedIn(acts, n - 1) + (if acts[n - 1].OnMessage? then 1 else 0)
  }

  lemma {:induction false} FlagsOnRuns(run: seq<World>, acts: seq<Action>, n: nat)
    requires IsRun(run, acts) && n <= |acts|
    ensures run[n].s.closed <==> Close in acts[..n]
    ensures run[n].s.queue <==> Open in acts[..n]
    ensures run[n].s.running <==> Finish !in acts[..n]
    ensures |run[n].returned| + |run[n].s.buffer| == HandedIn(acts, n)
    decreases n
  {
    if n > 0 {
      FlagsOnRuns(run, acts, n - 1);
      RunStep(run, acts, n - 1);
      assert acts[..n] == acts[..n - 1] + [acts[n - 1]];
    }
  }

  /**
   In every run a call of `receive()` throws if and only if the receiver has been closed,
   even with messages buffered; otherwise it waits if and only if the receiver is not open
   yet or every message handed in has been returned; otherwise it returns the next message
   in the order of arrival. The thread is waiting afterwards exactly in the second case.
   */
  lemma ReceiveDecides(run: seq<World>, acts: seq<Action>, i: nat)
    requires IsRun(run, acts) && i < |acts| && acts[i].Receive?
    ensures var r, t := ReceiveResult(run[i].s), acts[i].t;
      && (r.Throws? <==> Close in acts[..i])
      && (r.Blocks? <==> Close !in acts[..i] && (Open !in acts[..i] || |run[i].returned| == HandedIn(acts, i)))
      && (r.Got? ==> |run[i].returned| < |run[i].arrived| && r.m == run[i].arrived[|run[i].returned|])
      && run[i + 1].returned == (if r.Got? then run[i].returned + [r.m] else run[i].returned)
      && (t in run[i + 1].s.waiting <==> r.Blocks?)
      && (forall u :: u != t ==> (u in run[i + 1].s.waiting <==> u in run[i].s.waiting))
  {
    RunStep(run, acts, i);
    FlagsOnRuns(run, acts, i);
    InvOnRuns(run, acts, i);
  }

  /**
   The first `close()` queues the closing of the connection, last, exactly if the work queue
   is known and still takes jobs; a later one does nothing.
   */
  lemma CloseEffect(s: State)
    ensures var n := Next(s, Close);
      && n.closed && n.buffer == s.buffer && n.credit == s.credit
      && (s.closed ==> n == s)
      && (!s.closed && s.queue && s.running ==> n.jobs == s.jobs + [CloseConnection])
      && (!s.closed && !(s.queue && s.running) ==> n.jobs == s.jobs)
      && (!s.closed ==> forall t :: t in s.waiting ==> t in n.waiting && n.waiting[t])
  {
  }

  /** After the end of the connection no job is queued. */
  lemma NothingQueuedAfterEnd(s: State, a: Action)
    requires Enabled(s, a) && !s.running
    ensures Next(s, a).jobs == if a.RunJob? then s.jobs[1..] else s.jobs
  {
  }

  /** The receiver object: each method is what one thread does while it holds the lock. */
  class Receiver {
    var queue: bool
    var running: bool
    var closed: bool
    var credit: int
    var arriving: Option<Message>
    var buffer: seq<Message>
    var jobs: seq<Job>
    var waiting: map<Thread, bool>

    ghost function View(): State
      reads this
    {
      State(queue, running, closed, credit, arriving, buffer, jobs, waiting)
    }

    /** The places add up to the buffer size while it is open, and no thread sleeps through a message. */
    ghost predicate Valid()
      reads this
    {
      Sound(View())
    }

    constructor ()
      ensures Valid() && View() == INITIAL
    {
      queue, running, closed, credit, arriving := false, true, false, 0, None;
      buffer, jobs, waiting := [], [], map[];
    }

    method AddJob(j: Job)
      modifies this`jobs
      ensures View() == Add(old(View()), j)
    {
      if running {
        jobs := jobs + [j];
      }
    }

    /** `receive()`, from taking the lock to waiting, throwing or returning. */
    method Receive(t: Thread) returns (r: Received)
      requires Valid()
      modifies this
      ensures Valid() && View() == Next(old(View()), Action.Receive(t))
      ensures r == ReceiveResult(old(View()))
      ensures |buffer| <= MAX_BUFFER
    {
      SoundStep(View(), Action.Receive(t));
      if !closed && (!queue || buffer == []) {
        waiting := waiting[t := false];
        return Blocks;
      }
      waiting := waiting - {t};
      if closed {
        return Throws;
      }
      r := Got(buffer[0]);
      buffer := buffer[1..];
      AddJob(ReceiveDone);
    }

    method OnReceiverOpen()
      requires Valid() && Enabled(View(), Open)
      modifies this
      ensures Valid() && View() == Next(old(View()), Open)
    {
      SoundStep(View(), Open);
      queue := true;
      credit := credit + MAX_BUFFER;
    }

    method OnMessage()
      requires Valid() && arriving.Some?
      modifies this
      ensures Valid() && View() == Next(old(View()), Action.OnMessage)
    {
      SoundStep(View(), Action.OnMessage);
      buffer := buffer + [arriving.value];
      arriving := None;
      waiting := NotifyAll(waiting);
    }

    method Close()
      requires Valid()
      modifies this
      ensures Valid() && View() == Next(old(View()), Action.Close)
    {
      SoundStep(View(), Action.Close);
      if !closed {
        closed := true;
        waiting := NotifyAll(waiting);
        if queue {
          AddJob(CloseConnection);
        }
      }
    }
  }
}
