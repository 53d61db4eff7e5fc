/**
 A concrete run in which a commit reports a message of a transaction that was rolled
 back: the message is sent and accepted under the first transaction, the first
 transaction is aborted, and the second one, which sends nothing, is committed.
 */
module TransactionExample {
  import opened Common
  import opened Transactions
  import opened TransactionRuns
  import opened TransactionDeliveries
  import opened TransactionReports

  const FIRST: Id := [1]
  const SECOND: Id := [2]
  const MESSAGE := Ref(0, 0)

  /** A control message, settled or not. */
  function Ctl(settled: bool): Delivery {
    Delivery(NoState, settled, NoState, false)
  }

  /** The one message: sent under the first transaction, then accepted, then rolled back. */
  const SENT := Delivery(Transactional(FIRST, None), false, NoState, false)
  const ACCEPTED := SENT.(remote := Transactional(FIRST, Some(Accepted)))
  const ROLLED_BACK := ACCEPTED.(local := NoState, settled := true)

  /** The session with its sender, its coordinator link and its context. */
  function Session(sent: seq<Delivery>, controls: seq<Delivery>, t: Txn, phase: Phase): Conn {
    Conn([Link(0, true, false, true, sent), Link(0, true, false, true, controls)], map[0 := t], phase)
  }

  function Context(state: Progress, id: Id, failed: bool, provisional: set<Ref>): Txn {
    Txn(1, state, id, failed, true, false, provisional)
  }

  /** A step of the example. */
  ghost predicate Goes(c: Conn, a: Action, c': Conn) {
    Enabled(c, a) && Next(c, a) == c'
  }

  lemma Opens()
    ensures Goes(EMPTY, OpenLink(0, true, false, true), Conn([Link(0, true, false, true, [])], map[], Idle))
  {
  }

  lemma FirstDeclare()
    ensures Goes(Conn([Link(0, true, false, true, [])], map[], Idle), Declare(0, None),
                 Session([], [Ctl(false)], Context(Declaring, [], false, {}), Idle))
  {
    var c := Conn([Link(0, true, false, true, [])], map[], Idle);
    assert !HasUnsettledOutgoing(c, 0);
    var c' := Next(c, Declare(0, None));
    assert |c'.links| == 2 && c'.links[0] == c.links[0];
    assert c'.links[1] == Link(0, true, false, true, [Ctl(false)]);
    assert c'.links == Session([], [Ctl(false)], Context(Declaring, [], false, {}), Idle).links;
    assert c'.txns == map[0 := Context(Declaring, [], false, {})];
  }

  /** A declare on the session once nothing is unsettled. */
  lemma LaterDeclare(sent: seq<Delivery>, controls: seq<Delivery>, failed: bool, p: set<Ref>)
    requires !AnyUnsettled(sent)
    ensures Goes(Session(sent, controls, Context(NoTransaction, [], failed, p), Idle), Declare(0, None),
                 Session(sent, controls + [Ctl(false)], Context(Declaring, [], failed, p), Idle))
  {
    var c := Session(sent, controls, Context(NoTransaction, [], failed, p), Idle);
    assert !HasUnsettledOutgoing(c, 0);
    var c' := Next(c, Declare(0, None));
    assert c'.links[1] == Link(0, true, false, true, controls + [Ctl(false)]);
    assert c'.links == Session(sent, controls + [Ctl(false)], Context(Declaring, [], failed, p), Idle).links;
    assert c'.txns == map[0 := Context(Declaring, [], failed, p)];
  }

  /** The outcome of a declare, and the return from its callback. */
  lemma DeclareSucceeds(sent: seq<Delivery>, controls: seq<Delivery>, id: Id, failed: bool, p: set<Ref>)
    ensures var ctl := Ref(1, |controls|);
      var called := Session(sent, controls + [Ctl(false)], Context(Declared, id, failed, p), InDeclared(0, ctl));
      && Goes(Session(sent, controls + [Ctl(false)], Context(Declaring, [], failed, p), Idle),
              Answered(0, ctl, DeclaredWith(id)), called)
      && Goes(called, Return, Session(sent, controls + [Ctl(true)], Context(Declared, id, failed, p), Idle))
  {
    var ctl := Ref(1, |controls|);
    var called := Session(sent, controls + [Ctl(false)], Context(Declared, id, failed, p), InDeclared(0, ctl));
    assert Next(Session(sent, controls + [Ctl(false)], Context(Declaring, [], failed, p), Idle),
                Answered(0, ctl, DeclaredWith(id))).txns == map[0 := Context(Declared, id, failed, p)];
    assert (controls + [Ctl(false)])[|controls| := Ctl(true)] == controls + [Ctl(true)];
    assert Next(called, Return).links
        == Session(sent, controls + [Ctl(true)], Context(Declared, id, failed, p), Idle).links;
  }

  lemma Discharges(sent: seq<Delivery>, controls: seq<Delivery>, id: Id, was: bool, failed: bool, p: set<Ref>)
    ensures Goes(Session(sent, controls, Context(Declared, id, was, p), Idle), Discharge(0, failed),
                 Session(sent, controls + [Ctl(false)], Context(Discharging, id, failed, p), Idle))
  {
    var c := Session(sent, controls, Context(Declared, id, was, p), Idle);
    var c' := Next(c, Discharge(0, failed));
    assert c'.links == Session(sent, controls + [Ctl(false)], Context(Discharging, id, failed, p), Idle).links;
    assert c'.txns == map[0 := Context(Discharging, id, failed, p)];
  }

  lemma MessageIsSent()
    ensures Goes(Session([], [Ctl(true)], Context(Declared, FIRST, false, {}), Idle), Send(0),
                 Session([SENT], [Ctl(true)], Context(Declared, FIRST, false, {}), Idle))
  {
    var c := Session([], [Ctl(true)], Context(Declared, FIRST, false, {}), Idle);
    assert !IsCoordinator(c, 0) && Tag(c, 0) == SENT.local;
    assert Next(c, Send(0)).links[0] == Link(0, true, false, true, [SENT]);
    assert Next(c, Send(0)).links == Session([SENT], [Ctl(true)], Context(Declared, FIRST, false, {}), Idle).links;
  }

  lemma MessageIsAccepted()
    ensures var called := Session([ACCEPTED], [Ctl(true)],
        Context(Declared, FIRST, false, {MESSAGE}), InTracker(MESSAGE));
      && Goes(Session([SENT], [Ctl(true)], Context(Declared, FIRST, false, {}), Idle),
              TrackerUpdate(MESSAGE, Transactional(FIRST, Some(Accepted)), false), called)
      && Goes(called, Return, Session([ACCEPTED], [Ctl(true)], Context(Declared, FIRST, false, {MESSAGE}), Idle))
  {
    var c := Session([SENT], [Ctl(true)], Context(Declared, FIRST, false, {}), Idle);
    assert !IsCoordinator(c, 0) && Exists(c.links, MESSAGE) && At(c.links, MESSAGE) == SENT;
    var c' := Next(c, TrackerUpdate(MESSAGE, Transactional(FIRST, Some(Accepted)), false));
    assert c'.links[0] == Link(0, true, false, true, [ACCEPTED]);
    assert c'.links == Session([ACCEPTED], [Ctl(true)], Context(Declared, FIRST, false, {MESSAGE}), Idle).links;
    assert {} + {MESSAGE} == {MESSAGE};
    assert c'.txns[0] == Context(Declared, FIRST, false, {MESSAGE});
    assert c'.txns == map[0 := Context(Declared, FIRST, false, {MESSAGE})];
  }

  lemma RollBack()
    ensures var controls := [Ctl(true)];
      var called := Session([ROLLED_BACK], controls + [Ctl(false)],
                            Context(NoTransaction, FIRST, true, {MESSAGE}), InAborted(0, Ref(1, 1)));
      && Goes(Session([ACCEPTED], controls + [Ctl(false)], Context(Discharging, FIRST, true, {MESSAGE}), Idle),
              Answered(0, Ref(1, 1), CtlAccepted), called)
      && Goes(called, Return,
              Session([ROLLED_BACK], controls + [Ctl(true)], Context(NoTransaction, [], true, {MESSAGE}), Idle))
  {
    var controls := [Ctl(true)];
    var c := Session([ACCEPTED], controls + [Ctl(false)], Context(Discharging, FIRST, true, {MESSAGE}), Idle);
    var called := Session([ROLLED_BACK], controls + [Ctl(false)],
                          Context(NoTransaction, FIRST, true, {MESSAGE}), InAborted(0, Ref(1, 1)));
    var out := SweepLinks(SettleOutgoing, c.links, 0, 1);
    assert SweepAll(SettleOutgoing, [ACCEPTED]) == [ROLLED_BACK];
    assert out == called.links;
    assert SweepLinks(ModifyIncoming, out, 0, 1) == out;
    assert Next(c, Answered(0, Ref(1, 1), CtlAccepted)).txns == called.txns;
    assert (controls + [Ctl(false)])[1 := Ctl(true)] == controls + [Ctl(true)];
    var done := Session([ROLLED_BACK], controls + [Ctl(true)], Context(NoTransaction, [], true, {MESSAGE}), Idle);
    assert Next(called, Return).links == done.links && Next(called, Return).txns == done.txns;
  }

  /** Extend a run by one step. */
  lemma Extend(run: seq<World>, acts: seq<Action>, a: Action, c: Conn) returns (run': seq<World>, acts': seq<Action>)
    requires IsRun(run, acts) && Goes(run[|run| - 1].conn, a, c)
    ensures IsRun(run', acts') && |run'| == |run| + 1 && acts'[|acts|] == a && run'[|run| - 1] == run[|run| - 1]
    ensures run'[|run'| - 1].conn == c
    ensures run'[|run'| - 1].marks == MarksAfter(run[|run| - 1], a)
  {
    run', acts' := run + [Step(run[|run| - 1], a)], acts + [a];
    forall i | 0 <= i < |acts'| ensures StepsAt(run', acts', i) {
      if i < |acts| {
        assert StepsAt(run, acts, i);
      }
    }
  }

  /** A run that ends in the connection state `c`, with `ms` recorded on the session. */
  ghost predicate Reaches(run: seq<World>, acts: seq<Action>, c: Conn, ms: set<Mark>) {
    IsRun(run, acts) && run[|run| - 1].conn == c && MarksOf(run[|run| - 1], 0) == ms
  }

  /** A step that records nothing. */
  lemma ExtendPlainly(run: seq<World>, acts: seq<Action>, c: Conn, ms: set<Mark>, a: Action, c': Conn)
    returns (run': seq<World>, acts': seq<Action>)
    requires Reaches(run, acts, c, ms) && Goes(c, a, c')
    requires !a.TrackerUpdate? && (a.Return? ==> !c.phase.Reporting?) && (a.Declare? ==> ms == {} || 0 in c.txns)
    ensures Reaches(run', acts', c', ms)
  {
    run', acts' := Extend(run, acts, a, c');
  }

  const OPEN := Conn([Link(0, true, false, true, [])], map[], Idle)

  lemma DeclaredRun() returns (run: seq<World>, acts: seq<Action>)
    ensures Reaches(run, acts, Session([], [Ctl(true)], Context(Declared, FIRST, false, {}), Idle), {})
  {
    var declaring := Session([], [] + [Ctl(false)], Context(Declaring, [], false, {}), Idle);
    var called := Session([], [] + [Ctl(false)], Context(Declared, FIRST, false, {}), InDeclared(0, Ref(1, 0)));
    assert [] + [Ctl(false)] == [Ctl(false)] && [] + [Ctl(true)] == [Ctl(true)];
    Opens();
    FirstDeclare();
    DeclareSucceeds([], [], FIRST, false, {});
    run, acts := ExtendPlainly([START], [], EMPTY, {}, OpenLink(0, true, false, true), OPEN);
    run, acts := ExtendPlainly(run, acts, OPEN, {}, Declare(0, None), declaring);
    run, acts := ExtendPlainly(run, acts, declaring, {}, Answered(0, Ref(1, 0), DeclaredWith(FIRST)), called);
    run, acts := ExtendPlainly(run, acts, called, {}, Return,
        Session([], [] + [Ctl(true)], Context(Declared, FIRST, false, {}), Idle));
  }

  lemma AcceptedRun() returns (run: seq<World>, acts: seq<Action>)
    ensures Reaches(run, acts, Session([ACCEPTED], [Ctl(true)], Context(Declared, FIRST, false, {MESSAGE}), Idle),
                    {Mark(MESSAGE, FIRST)})
  {
    var sent := Session([SENT], [Ctl(true)], Context(Declared, FIRST, false, {}), Idle);
    var called := Session([ACCEPTED], [Ctl(true)], Context(Declared, FIRST, false, {MESSAGE}), InTracker(MESSAGE));
    run, acts := DeclaredRun();
    MessageIsSent();
    run, acts := ExtendPlainly(run, acts, Session([], [Ctl(true)], Context(Declared, FIRST, false, {}), Idle),
        {}, Send(0), sent);
    MessageIsAccepted();
    run, acts := Extend(run, acts, TrackerUpdate(MESSAGE, Transactional(FIRST, Some(Accepted)), false), called);
    assert {} + {Mark(MESSAGE, FIRST)} == {Mark(MESSAGE, FIRST)};
    run, acts := ExtendPlainly(run, acts, called, {Mark(MESSAGE, FIRST)}, Return,
                               Session([ACCEPTED], [Ctl(true)], Context(Declared, FIRST, false, {MESSAGE}), Idle));
  }

  /** The run up to the point where the first transaction has been rolled back. */
  lemma RollBackRun() returns (run: seq<World>, acts: seq<Action>)
    ensures Reaches(run, acts,
        Session([ROLLED_BACK], [Ctl(true)] + [Ctl(true)], Context(NoTransaction, [], true, {MESSAGE}), Idle),
                    {Mark(MESSAGE, FIRST)})
  {
    var ms := {Mark(MESSAGE, FIRST)};
    var controls := [Ctl(true)];
    var accepted := Session([ACCEPTED], controls, Context(Declared, FIRST, false, {MESSAGE}), Idle);
    var asked := Session([ACCEPTED], controls + [Ctl(false)], Context(Discharging, FIRST, true, {MESSAGE}), Idle);
    var called := Session([ROLLED_BACK], controls + [Ctl(false)],
                          Context(NoTransaction, FIRST, true, {MESSAGE}), InAborted(0, Ref(1, 1)));
    run, acts := AcceptedRun();
    Discharges([ACCEPTED], controls, FIRST, false, true, {MESSAGE});
    run, acts := ExtendPlainly(run, acts, accepted, ms, Discharge(0, true), asked);
    RollBack();
    run, acts := ExtendPlainly(run, acts, asked, ms, Answered(0, Ref(1, 1), CtlAccepted), called);
    run, acts := ExtendPlainly(run, acts, called, ms, Return,
                               Session([ROLLED_BACK], controls + [Ctl(true)],
                                   Context(NoTransaction, [], true, {MESSAGE}), Idle));
  }

  /** A second transaction is declared and its commit asked for, on a session with three or more control messages. */
  lemma SecondRun(controls: seq<Delivery>, run0: seq<World>, acts0: seq<Action>)
    returns (run: seq<World>, acts: seq<Action>)
    requires Reaches(run0, acts0, Session([ROLLED_BACK], controls, Context(NoTransaction, [], true, {MESSAGE}), Idle),
                     {Mark(MESSAGE, FIRST)})
    ensures Reaches(run, acts, Session([ROLLED_BACK], controls + [Ctl(true)] + [Ctl(false)],
                                       Context(Discharging, SECOND, false, {MESSAGE}), Idle),
                    {Mark(MESSAGE, FIRST)})
  {
    var ms, p, ctl := {Mark(MESSAGE, FIRST)}, {MESSAGE}, Ref(1, |controls|);
    var idle := Session([ROLLED_BACK], controls, Context(NoTransaction, [], true, p), Idle);
    var declaring := Session([ROLLED_BACK], controls + [Ctl(false)], Context(Declaring, [], true, p), Idle);
    var called := Session([ROLLED_BACK], controls + [Ctl(false)],
        Context(Declared, SECOND, true, p), InDeclared(0, ctl));
    var declared := Session([ROLLED_BACK], controls + [Ctl(true)], Context(Declared, SECOND, true, p), Idle);
    LaterDeclare([ROLLED_BACK], controls, true, p);
    DeclareSucceeds([ROLLED_BACK], controls, SECOND, true, p);
    Discharges([ROLLED_BACK], controls + [Ctl(true)], SECOND, true, false, p);
    run, acts := ExtendPlainly(run0, acts0, idle, ms, Declare(0, None), declaring);
    run, acts := ExtendPlainly(run, acts, declaring, ms, Answered(0, ctl, DeclaredWith(SECOND)), called);
    run, acts := ExtendPlainly(run, acts, called, ms, Return, declared);
    run, acts := ExtendPlainly(run, acts, declared, ms, Discharge(0, false),
                               Session([ROLLED_BACK], controls + [Ctl(true)] + [Ctl(false)],
                                       Context(Discharging, SECOND, false, p), Idle));
  }

  /**
   The commit of the second transaction reports the message of the first, which was
   rolled back and never belonged to the second.
   */
  lemma CommitReportsARolledBackMessage() returns (run: seq<World>, acts: seq<Action>, i: nat)
    ensures IsRun(run, acts) && i < |acts| && Commits(run[i].conn, acts[i], 0)
    ensures run[i].conn.txns[0].id == SECOND && TrackersUnder(MarksOf(run[i], 0), SECOND) == {}
    ensures Exists(run[i].conn.links, MESSAGE) && At(run[i].conn.links, MESSAGE) == ROLLED_BACK
    ensures run[i + 1].conn.phase.Reporting? && MESSAGE in run[i + 1].conn.phase.todo
  {
    run, acts := RollBackRun();
    var controls := [Ctl(true)] + [Ctl(true)];
    run, acts := SecondRun(controls, run, acts);
    var ready := run[|run| - 1].conn;
    i := |run| - 1;
    var a := Answered(0, Ref(1, 3), CtlAccepted);
    run, acts := Extend(run, acts, a, Next(ready, a));
    assert acts[i] == a && run[i].conn == ready;
  }
}
