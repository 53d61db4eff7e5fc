/**
 A queue of the C broker: messages, the connections waiting for one, and the count of
 messages sent. Every operation runs under the queue's lock, so a run is a sequence of
 operations by any number of connections.
 */
module BrokerQueue {
  import opened Common
  import opened BrokerVector

  type Message = nat
  type Connection = nat

  /** A sender link of the broker, which draws from this queue. */
  datatype Link = Link(connection: Connection, id: nat)

  datatype State = State(messages: seq<Message>, waiting: seq<Connection>, sent: nat)

  /** A message as it leaves the queue, with its delivery tag. */
  datatype Outgoing = Outgoing(tag: nat, message: Message)

  // ---------- The operations ----------

  function Sent(q: State, c: Connection): State {
    if q.messages == [] then q.(waiting := if c in q.waiting then q.waiting else q.waiting + [c])
    else q.(messages := q.messages[1..], sent := q.sent + 1)
  }

  function SentMessage(q: State): Option<Outgoing> {
    if q.messages == [] then None else Some(Outgoing(q.sent + 1, q.messages[0]))
  }

  function Received(q: State, m: Message): State {
    q.(messages := q.messages + [m], waiting := if q.messages == [] then [] else q.waiting)
  }

  function Woken(q: State): seq<Connection> {
    if q.messages == [] then q.waiting else []
  }

  function FirstIndex(s: seq<Connection>, c: Connection, from: nat): nat
    requires from <= |s|
    decreases |s| - from
  {
    if from == |s| || s[from] == c then from else FirstIndex(s, c, from + 1)
  }

  /** The first connection takes the removed one's place, and the front place is dropped. */
  function Unsubscribed(q: State, c: Connection): State {
    var i := FirstIndex(q.waiting, c, 0);
    if i >= |q.waiting| then q else q.(waiting := q.waiting[i := q.waiting[0]][1..])
  }

  lemma {:induction false} FirstIndexFinds(s: seq<Connection>, c: Connection, from: nat)
    requires from <= |s|
    ensures var i := FirstIndex(s, c, from);
      from <= i <= |s| && (i < |s| ==> s[i] == c) && (forall k :: from <= k < i ==> s[k] != c)
    decreases |s| - from
  {
    if from < |s| && s[from] != c {
      FirstIndexFinds(s, c, from + 1);
    }
  }

  // ---------- Unsubscribing removes exactly one connection ----------

  ghost predicate NoDuplicates(s: seq<Connection>) {
    forall i, j :: 0 <= i < j < |s| ==> s[i] != s[j]
  }

  lemma SwapAndShift(s: seq<Connection>, i: nat)
    requires i < |s|
    ensures multiset(s[i := s[0]][1..]) == multiset(s) - multiset{s[i]}
  {
    var t := s[i := s[0]];
    assert t == [s[0]] + t[1..];
    assert multiset(t) == multiset{s[0]} + multiset(t[1..]);
    assert multiset(t) == multiset(s) - multiset{s[i]} + multiset{s[0]};
    assert multiset(t[1..]) == multiset(t) - multiset{s[0]};
  }

  /** Whatever the order, unsubscribing takes one occurrence of the connection off the list and leaves all others. */
  lemma UnsubscribedExactly(q: State, c: Connection)
    ensures multiset(Unsubscribed(q, c).waiting) == multiset(q.waiting) - multiset{c}
    ensures Unsubscribed(q, c).messages == q.messages && Unsubscribed(q, c).sent == q.sent
  {
    FirstIndexFinds(q.waiting, c, 0);
    var i := FirstIndex(q.waiting, c, 0);
    if i < |q.waiting| {
      SwapAndShift(q.waiting, i);
    } else {
      assert c !in multiset(q.waiting);
    }
  }

  /** The connection at the front takes the place of the first occurrence, and the others move up by one. */
  lemma UnsubscribedOrder(q: State, c: Connection, k: nat)
    requires k < |q.waiting| && q.waiting[k] == c && c !in q.waiting[..k]
    ensures var r := Unsubscribed(q, c).waiting;
      && |r| == |q.waiting| - 1
      && forall j :: 0 <= j < |r| ==> r[j] == if j + 1 == k then q.waiting[0] else q.waiting[j + 1]
  {
    FirstIndexFinds(q.waiting, c, 0);
    assert forall j :: 0 <= j < k ==> q.waiting[j] == q.waiting[..k][j];
  }

  lemma {:induction false} OnceEach(s: seq<Connection>)
    ensures NoDuplicates(s) <==> forall c :: multiset(s)[c] <= 1
  {
    if s == [] {
    } else {
      var n := |s| - 1;
      OnceEach(s[..n]);
      assert s == s[..n] + [s[n]];
      assert multiset(s) == multiset(s[..n]) + multiset{s[n]};
      if NoDuplicates(s) {
        assert NoDuplicates(s[..n]) && s[n] !in multiset(s[..n]);
      } else if NoDuplicates(s[..n]) {
        var i, j :| 0 <= i < j < |s| && s[i] == s[j];
        assert j == n;
        assert s[..n][i] == s[n] && s[n] in multiset(s[..n]);
        assert multiset(s)[s[n]] > 1;
      } else {
        var c :| multiset(s[..n])[c] > 1;
        assert multiset(s)[c] > 1;
      }
    }
  }

  lemma UnsubscribedKeeps(q: State, c: Connection)
    requires NoDuplicates(q.waiting)
    ensures NoDuplicates(Unsubscribed(q, c).waiting)
    ensures forall d :: d in Unsubscribed(q, c).waiting <==> d in q.waiting && d != c
  {
    var r := Unsubscribed(q, c).waiting;
    UnsubscribedExactly(q, c);
    OnceEach(q.waiting);
    OnceEach(r);
    forall d ensures d in r <==> d in q.waiting && d != c {
      assert d in r <==> d in multiset(r);
      assert d in q.waiting <==> d in multiset(q.waiting);
    }
  }

  // ---------- Runs ----------

  datatype Action =
    | Send(l: Link)          // queue_send for a link with credit
    | Receive(m: Message)    // queue_receive
    | Unsubscribe(l: Link)   // queue_unsub for a link that closes

  /**
   What has happened: messages received and sent in order, and the links that found the
   queue empty and have neither been woken nor closed nor looked again since.
   */
  datatype World = World(q: State, received: seq<Message>, sent: seq<Outgoing>, hungry: set<Link>)

  function Next(w: World, a: Action): World {
    match a
    case Send(l) =>
      World(Sent(w.q, l.connection), w.received,
            if w.q.messages == [] then w.sent else w.sent + [SentMessage(w.q).value],
            if w.q.messages == [] then w.hungry + {l} else w.hungry - {l})
    case Receive(m) =>
      World(Received(w.q, m), w.received + [m], w.sent,
            set l | l in w.hungry && l.connection !in Woken(w.q))
    case Unsubscribe(l) =>
      World(Unsubscribed(w.q, l.connection), w.received, w.sent, w.hungry - {l})
  }

  ghost predicate StepsAt(run: seq<World>, acts: seq<Action>, k: nat)
    requires k < |acts| && |run| == |acts| + 1
  {
    run[k + 1] == Next(run[k], acts[k])
  }

  ghost predicate IsRun(run: seq<World>, acts: seq<Action>) {
    && |run| == |acts| + 1
    && run[0] == World(State([], [], 0), [], [], {})
    && forall i :: 0 <= i < |acts| ==> StepsAt(run, acts, i)
  }

  lemma RunStep(run: seq<World>, acts: seq<Action>, k: nat)
    requires IsRun(run, acts) && k < |acts|
    ensures run[k + 1] == Next(run[k], acts[k])
  {
    assert StepsAt(run, acts, k);
  }

  ghost predicate Waits(w: World) {
    && NoDuplicates(w.q.waiting)
    && (w.q.messages != [] ==> w.q.waiting == [])
  }

  ghost predicate Fifo(w: World) {
    && w.q.sent == |w.sent| <= |w.received|
    && w.q.messages == w.received[w.q.sent..]
    && forall i :: 0 <= i < |w.sent| ==> w.sent[i] == Outgoing(i + 1, w.received[i])
  }

  lemma WaitsKept(w: World, a: Action)
    requires Waits(w)
    ensures Waits(Next(w, a))
  {
    if a.Unsubscribe? {
      UnsubscribedKeeps(w.q, a.l.connection);
      if w.q.messages != [] {
        assert Unsubscribed(w.q, a.l.connection).waiting == [];
      }
    }
  }

  lemma FifoKept(w: World, a: Action)
    requires Fifo(w)
    ensures Fifo(Next(w, a))
  {
    if a.Unsubscribe? {
      UnsubscribedExactly(w.q, a.l.connection);
    }
  }

  lemma {:induction false} InvOnRuns(run: seq<World>, acts: seq<Action>, i: nat)
    requires IsRun(run, acts) && i < |run|
    ensures Waits(run[i]) && Fifo(run[i])
    decreases i
  {
    if i > 0 {
      InvOnRuns(run, acts, i - 1);
      RunStep(run, acts, i - 1);
      WaitsKept(run[i - 1], acts[i - 1]);
      FifoKept(run[i - 1], acts[i - 1]);
    }
  }

  /** In every run the list of waiting connections has no duplicates, and is empty while there are messages. */
  lemma WaitingOnlyWhenEmpty(run: seq<World>, acts: seq<Action>, i: nat)
    requires IsRun(run, acts) && i < |run|
    ensures NoDuplicates(run[i].q.waiting)
    ensures run[i].q.messages == [] || run[i].q.waiting == []
  {
    InvOnRuns(run, acts, i);
  }

  /** In every run messages leave in the order in which they came, each one once, with tags 1, 2, 3, ... */
  lemma LeaveInOrder(run: seq<World>, acts: seq<Action>, i: nat)
    requires IsRun(run, acts) && i < |run|
    ensures run[i].received
        == seq(|run[i].sent|, k requires 0 <= k < |run[i].sent| => run[i].sent[k].message) + run[i].q.messages
    ensures forall k :: 0 <= k < |run[i].sent| ==> run[i].sent[k].tag == k + 1
  {
    InvOnRuns(run, acts, i);
  }

  /** In every run a message that arrives wakes all waiting connections, each once, and leaves none waiting. */
  lemma AllWaitingAreWoken(run: seq<World>, acts: seq<Action>, i: nat)
    requires IsRun(run, acts) && i < |acts| && acts[i].Receive?
    ensures Woken(run[i].q) == run[i].q.waiting && NoDuplicates(Woken(run[i].q))
    ensures run[i + 1].q.waiting == [] && run[i + 1].q.messages == run[i].q.messages + [acts[i].m]
  {
    InvOnRuns(run, acts, i);
    RunStep(run, acts, i);
  }

  // ---------- No link is forgotten ----------

  /** Every link that found the queue empty has its connection on the waiting list. */
  ghost predicate Remembered(w: World) {
    forall l :: l in w.hungry ==> l.connection in w.q.waiting
  }

  /** A link that closes has no sibling on its connection that still waits for this queue. */
  ghost predicate ClosesAlone(w: World, a: Action) {
    a.Unsubscribe? ==> forall l :: l in w.hungry && l.connection == a.l.connection ==> l == a.l
  }

  /** A step keeps every hungry link remembered exactly when no link closes beside a hungry sibling. */
  lemma RememberedStep(w: World, a: Action)
    requires Remembered(w) && Waits(w)
    ensures Remembered(Next(w, a)) <==> ClosesAlone(w, a)
  {
    if a.Unsubscribe? {
      UnsubscribedKeeps(w.q, a.l.connection);
    }
  }

  ghost predicate AloneUpTo(run: seq<World>, acts: seq<Action>, n: nat)
    requires n <= |acts| && n <= |run|
  {
    n > 0 ==> ClosesAlone(run[n - 1], acts[n - 1]) && AloneUpTo(run, acts, n - 1)
  }

  ghost predicate RememberedUpTo(run: seq<World>, n: nat)
    requires n < |run|
  {
    Remembered(run[n]) && (n > 0 ==> RememberedUpTo(run, n - 1))
  }

  /**
   Throughout a run, every link that found the queue empty and was not woken since is still
   remembered, exactly when no link closed while a sibling on its connection was waiting.
   */
  lemma {:induction false} RememberedIff(run: seq<World>, acts: seq<Action>, n: nat)
    requires IsRun(run, acts) && n <= |acts|
    ensures RememberedUpTo(run, n) <==> AloneUpTo(run, acts, n)
    decreases n
  {
    if n > 0 {
      RememberedIff(run, acts, n - 1);
      InvOnRuns(run, acts, n - 1);
      RunStep(run, acts, n - 1);
      if RememberedUpTo(run, n - 1) {
        RememberedStep(run[n - 1], acts[n - 1]);
      }
    }
  }

  /** In such a run, a link left hungry means that there is no message for it. */
  lemma HungryOnlyWhenEmpty(run: seq<World>, acts: seq<Action>, n: nat, l: Link)
    requires IsRun(run, acts) && n <= |acts| && AloneUpTo(run, acts, n) && l in run[n].hungry
    ensures run[n].q.messages == [] && l.connection in run[n].q.waiting
  {
    RememberedIff(run, acts, n);
    InvOnRuns(run, acts, n);
  }

  /** Two links of one connection wait, one closes, a message comes: it stays on the queue and nobody is woken. */
  lemma SiblingCanBeForgotten() returns (run: seq<World>, acts: seq<Action>)
    ensures IsRun(run, acts)
    ensures Link(1, 1) in run[|run| - 1].hungry && run[|run| - 1].q.messages == [9] && run[|run| - 1].q.waiting == []
    ensures Woken(run[|run| - 2].q) == []
  {
    var w0 := World(State([], [], 0), [], [], {});
    var w1 := Next(w0, Send(Link(1, 1)));
    var w2 := Next(w1, Send(Link(1, 2)));
    assert w2.q == State([], [1], 0) && w2.hungry == {Link(1, 1), Link(1, 2)};
    var w3 := Next(w2, Unsubscribe(Link(1, 2)));
    assert w3.q == State([], [], 0);
    var w4 := Next(w3, Receive(9));
    run := [w0, w1, w2, w3, w4];
    acts := [Send(Link(1, 1)), Send(Link(1, 2)), Unsubscribe(Link(1, 2)), Receive(9)];
    assert forall i :: 0 <= i < |acts| ==> StepsAt(run, acts, i);
  }

  // ---------- In place ----------

  class Queue {
    var messages: Vector<Message>
    var waiting: Vector<Connection>
    var sent: nat

    ghost predicate Valid()
      reads this, messages, waiting
    {
      messages.Valid() && waiting.Valid() && messages.data != waiting.data
    }

    ghost function Footprint(): set<object>
      reads this, messages, waiting
    {
      {this, messages, waiting, messages.data, waiting.data}
    }

    ghost function View(): State
      reads this, messages, waiting, messages.data, waiting.data
      requires Valid()
    {
      State(messages.Contents(), waiting.Contents(), sent)
    }

    constructor ()
      ensures Valid() && View() == State([], [], 0) && fresh(Footprint())
    {
      messages := new Vector();
      waiting := new Vector();
      sent := 0;
    }

    method IndexOf(c: Connection) returns (i: nat)
      requires Valid()
      ensures i == FirstIndex(waiting.Contents(), c, 0)
    {
      i := 0;
      ghost var s := waiting.Contents();
      while i < waiting.len && waiting.data[i] != c
        invariant 0 <= i <= waiting.len
        invariant FirstIndex(s, c, 0) == FirstIndex(s, c, i)
      {
        i := i + 1;
      }
    }

    /** Record a connection for wake-up if it is not on the list. */
    method AddWaiting(c: Connection)
      requires Valid()
      modifies waiting, waiting.data
      ensures Valid() && (waiting.data == old(waiting.data) || fresh(waiting.data))
      ensures View() == old(View()).
          (waiting := if c in old(waiting.Contents()) then old(waiting.Contents()) else old(waiting.Contents()) + [c])
    {
      var i := IndexOf(c);
      FirstIndexFinds(waiting.Contents(), c, 0);
      if i == waiting.len {
        waiting.Push(c);
      }
    }

    /** `queue_send` for a link of connection c. */
    method Send(c: Connection) returns (m: Option<Outgoing>)
      requires Valid()
      modifies Footprint()
      ensures Valid() && fresh(Footprint() - old(Footprint()))
      ensures View() == Sent(old(View()), c) && m == SentMessage(old(View()))
    {
      m := None;
      if messages.len == 0 {
        AddWaiting(c);
      } else {
        var first := messages.data[0];
        messages.Pop();
        sent := sent + 1;
        m := Some(Outgoing(sent, first));
      }
    }

    /** `queue_receive`, with the connections it wakes. */
    method Receive(m: Message) returns (woken: seq<Connection>)
      requires Valid()
      modifies Footprint()
      ensures Valid() && fresh(Footprint() - old(Footprint()))
      ensures View() == Received(old(View()), m) && woken == Woken(old(View()))
    {
      woken := [];
      messages.Push(m);
      if messages.len == 1 {
        var i := 0;
        while i < waiting.len
          invariant 0 <= i <= waiting.len
          invariant woken == waiting.data[..i]
        {
          woken := woken + [waiting.data[i]];
          i := i + 1;
        }
        waiting.len := 0;
      }
    }

    /** `queue_unsub`. */
    method Unsubscribe(c: Connection)
      requires Valid()
      modifies Footprint()
      ensures Valid() && Footprint() == old(Footprint())
      ensures View() == Unsubscribed(old(View()), c)
    {
      var i := IndexOf(c);
      if i < waiting.len {
        waiting.data[i] := waiting.data[0];
        assert waiting.Contents() == old(waiting.Contents())[i := old(waiting.Contents())[0]];
        waiting.Pop();
      }
    }
  }
}
