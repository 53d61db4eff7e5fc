/**
 The transaction steps as the library performs them: loops over the connection's links
 and over the unsettled deliveries of each, and contexts updated in place. Every method
 is proved to take the step of `Transactions.Next` that it stands for.
 */
module TransactionAdapter {
  import opened Common
  import opened Transactions

  /** `pn_unsettled_head` and `pn_unsettled_next`: the first unsettled delivery from `k` on. */
  method NextUnsettled(ds: seq<Delivery>, k: nat) returns (j: nat)
    requires k <= |ds|
    ensures k <= j <= |ds|
    ensures j < |ds| ==> !ds[j].settled
    ensures forall i :: k <= i < j ==> ds[i].settled
  {
    j := k;
    while j < |ds| && ds[j].settled
      invariant k <= j <= |ds|
      invariant forall i :: k <= i < j ==> ds[i].settled
    {
      j := j + 1;
    }
  }

  /** The inner loop of a sweep: every unsettled delivery of one link. */
  method SweepDeliveries(w: Sweep, ds: seq<Delivery>) returns (r: seq<Delivery>)
    ensures r == SweepAll(w, ds)
  {
    r := ds;
    var d := NextUnsettled(r, 0);
    while d < |r|
      invariant d <= |r| == |ds|
      invariant d < |r| ==> !r[d].settled
      invariant forall i :: 0 <= i < d ==> r[i] == SweepDelivery(w, ds[i])
      invariant forall i :: d <= i < |r| ==> r[i] == ds[i]
    {
      r := r[d := SweepDelivery(w, r[d])];
      d := NextUnsettled(r, d + 1);
    }
  }

  class Connection {
    var links: seq<Link>
    var txns: map<nat, Txn>
    var phase: Phase

    ghost function View(): Conn
      reads this
    {
      Conn(links, txns, phase)
    }

    constructor ()
      ensures View() == EMPTY
    {
      links, txns, phase := [], map[], Idle;
    }

    method HasUnsettledOutgoingDeliveries(s: nat) returns (found: bool)
      ensures found <==> HasUnsettledOutgoing(View(), s)
    {
      var l := 0;
      while l < |links|
        invariant l <= |links|
        invariant forall i :: 0 <= i < l && Outgoing(View(), s, i) ==> !AnyUnsettled(links[i].deliveries)
      {
        if links[l].sender && links[l].session == s && !(s in txns && txns[s].coordinator == l) {
          var d := NextUnsettled(links[l].deliveries, 0);
          if d < |links[l].deliveries| {
            assert Outgoing(View(), s, l) && AnyUnsettled(links[l].deliveries);
            return true;
          }
        }
        l := l + 1;
      }
      return false;
    }

    /** The sweeps at commit and abort: all links of the connection, all unsettled deliveries of each. */
    method SweepSession(w: Sweep, s: nat, coordinator: nat)
      modifies this`links
      ensures links == SweepLinks(w, old(links), s, coordinator)
    {
      var l := 0;
      while l < |links|
        invariant l <= |links| == |old(links)|
        invariant forall i :: 0 <= i < l ==> links[i] == SweepLinks(w, old(links), s, coordinator)[i]
        invariant forall i :: l <= i < |links| ==> links[i] == old(links)[i]
      {
        if Covers(w, links, s, coordinator, l) {
          var ds := SweepDeliveries(w, links[l].deliveries);
          links := links[l := links[l].(deliveries := ds)];
        }
        l := l + 1;
      }
    }

    /** `sender::send`: a new delivery, settled at once on a presettled link, enlisted if a transaction is declared. */
    method SendMessage(l: nat)
      requires l < |links|
      modifies this`links
      ensures View() == SendOn(old(View()), l)
    {
      var k := links[l];
      var d := Delivery(NoState, false, NoState, false);
      if k.presettled {
        d := d.(settled := true);
      }
      if k.session in txns && txns[k.session].state == Declared {
        d := d.(local := Transactional(txns[k.session].id, None));
      }
      links := links[l := k.(deliveries := k.deliveries + [d])];
    }

    method TransactionDeclare(s: nat, autoModify: Option<bool>) returns (r: Outcome)
      requires s in txns ==> txns[s].coordinator < |links|
      modifies this
      ensures View() == Next(old(View()), Declare(s, autoModify))
      ensures r.Refused? <==> !IsEmpty(old(View()), s) || HasUnsettledOutgoing(old(View()), s)
    {
      if s in txns && txns[s].state != NoTransaction {
        return Refused;
      }
      var unsettled := HasUnsettledOutgoingDeliveries(s);
      if unsettled {
        return Refused;
      }
      if s !in txns {
        links := links + [Link(s, true, false, true, [])];
        txns := txns[s := Txn(|links| - 1, NoTransaction, [], false, true, false, {})];
      }
      if autoModify.Some? {
        txns := txns[s := txns[s].(autoModify := autoModify.value)];
      }
      txns := txns[s := txns[s].(state := Declaring)];
      SendMessage(txns[s].coordinator);
      return Done;
    }

    method TransactionDischarge(s: nat, failed: bool) returns (r: Outcome)
      requires s in txns ==> txns[s].coordinator < |links|
      modifies this
      ensures View() == Next(old(View()), Discharge(s, failed))
      ensures r.Refused? <==> !IsDeclared(old(View()), s)
    {
      if s !in txns || txns[s].state != Declared {
        return Refused;
      }
      txns := txns[s := txns[s].(state := Discharging, failed := failed)];
      SendMessage(txns[s].coordinator);
      return Done;
    }

    /** `settle_delivery`: provisional inside a declared transaction, final and settled otherwise. */
    method SettleDelivery(r: Ref, kind: Kind)
      requires Enabled(View(), Dispose(r, kind))
      modifies this`links
      ensures View() == Next(old(View()), Dispose(r, kind))
      ensures Exists(links, r) && var d := At(links, r);
        if IsDeclared(old(View()), old(links)[r.link].session)
        then !d.settled && d.local == Transactional(txns[links[r.link].session].id, Some(kind))
        else d.settled && d.local.Final? && d.local.kind == kind
    {
      var d := links[r.link].deliveries[r.index];
      var s := links[r.link].session;
      if s in txns && txns[s].state == Declared {
        d := d.(local := Transactional(txns[s].id, Some(kind)));
      } else {
        var failed := kind == Modified && (d.local.NoState? || (d.local.Final? && d.local.kind == Modified));
        d := d.(local := Final(kind, failed), settled := true);
      }
      links := Put(links, r, d);
    }

    method Settle(r: Ref)
      modifies this`links
      ensures View() == SettleRef(old(View()), r)
    {
      if Exists(links, r) {
        links := Put(links, r, At(links, r).(settled := true));
      }
    }

    /** The roll-back half of the coordinator's outcome, up to the aborted callback. */
    method RollBack(s: nat, ctl: Ref, error: bool)
      requires s in txns
      modifies this
      ensures View() == AbortOn(old(View()), s, ctl, error)
    {
      var t := txns[s];
      txns := txns[s := t.(state := NoTransaction)];
      SweepSession(SettleOutgoing, s, t.coordinator);
      txns := txns[s := txns[s].(error := error)];
      if t.autoModify {
        SweepSession(ModifyIncoming, s, t.coordinator);
      }
      phase := InAborted(s, ctl);
      assert txns == old(txns)[s := t.(state := NoTransaction, error := error)];
    }

    /** The commit half of the coordinator's outcome, up to the first report. */
    method Commit(s: nat, ctl: Ref)
      requires s in txns
      modifies this
      ensures View() == CommitOn(old(View()), s, ctl)
    {
      var t := txns[s];
      txns := txns[s := t.(state := NoTransaction)];
      SweepSession(SettleIncoming, s, t.coordinator);
      phase := Reporting(s, ctl, t.provisional);
    }

    method DropContext(s: nat, ctl: Ref)
      modifies this
      ensures View() == Reset(old(View()), s, ctl)
    {
      txns := txns - {s};
      Settle(ctl);
    }

    /** `handle_transaction_coordinator_outcome`, up to the callback it makes or to the settling of the message. */
    method CoordinatorOutcome(s: nat, ctl: Ref, answer: Answer)
      requires CanAnswer(View(), s, ctl)
      modifies this
      ensures View() == Next(old(View()), Answered(s, ctl, answer))
    {
      var t := txns[s];
      match answer {
        case DeclaredWith(id) =>
          if t.state == Declaring {
            txns := txns[s := t.(id := id, state := Declared)];
            phase := InDeclared(s, ctl);
          } else {
            DropContext(s, ctl);
          }
        case CtlAccepted =>
          if t.state == Discharging {
            if t.failed {
              RollBack(s, ctl, false);
            } else {
              Commit(s, ctl);
            }
          } else {
            DropContext(s, ctl);
          }
        case CtlRejected =>
          if t.state == Declaring {
            txns := txns[s := t.(state := NoTransaction, error := true)];
            phase := InError(s, ctl);
          } else if t.state == Discharging && !t.failed {
            RollBack(s, ctl, true);
          } else {
            DropContext(s, ctl);
          }
        case CtlOther =>
          Settle(ctl);
      }
    }

    /** The outcome of an outgoing delivery: record it if it is transactional and names this transaction. */
    method TrackerOutcome(r: Ref, remote: Disposition, remoteSettled: bool)
      requires Enabled(View(), TrackerUpdate(r, remote, remoteSettled))
      modifies this
      ensures View() == Next(old(View()), TrackerUpdate(r, remote, remoteSettled))
    {
      var s := links[r.link].session;
      links := Put(links, r, At(links, r).(remote := remote, remoteSettled := remoteSettled));
      if remote.Transactional? && s in txns && txns[s].id == remote.id {
        txns := txns[s := txns[s].(provisional := txns[s].provisional + {r})];
      }
      phase := InTracker(r);
    }

    /** After the callbacks about an outcome: announce the settlement, unless a discharge is under way. */
    method AfterTracker()
      requires phase.InTracker?
      modifies this`phase
      ensures View() == Next(old(View()), Return)
    {
      var r := phase.tracker;
      phase := Idle;
      if Exists(links, r) && At(links, r).remoteSettled {
        var s := links[r.link].session;
        if !(s in txns && txns[s].state == Discharging) {
          phase := InTrackerSettle(r);
        }
      }
    }

    /** After `on_tracker_settle`: settle on a link that does so by itself, whatever the callback did. */
    method AfterTrackerSettle()
      requires phase.InTrackerSettle?
      modifies this
      ensures View() == Next(old(View()), Return)
    {
      var r := phase.tracker;
      if Exists(links, r) && links[r.link].autoSettle {
        Settle(r);
      }
      phase := Idle;
    }

    /** One round of the loop over the provisional outcomes of a committed transaction. */
    method ReportOne(r: Ref)
      requires Enabled(View(), Report(r))
      modifies this
      ensures View() == Next(old(View()), Report(r))
    {
      phase := phase.(todo := phase.todo - {r});
      if Exists(links, r) && At(links, r).remoteSettled && links[r.link].autoSettle {
        Settle(r);
      }
    }

    /** The end of the reports: the provisional outcomes are cleared and the commit is announced. */
    method EndReports()
      requires phase.Reporting? && phase.todo == {}
      modifies this
      ensures View() == Next(old(View()), Return)
    {
      if phase.session in txns {
        txns := txns[phase.session := txns[phase.session].(provisional := {})];
      }
      phase := InCommitted(phase.session, phase.ctl);
    }

    /** What follows a callback about a control message: clear the id and the error, and settle the message. */
    method AfterControl()
      requires phase.InDeclared? || phase.InAborted? || phase.InCommitted? || phase.InError?
      modifies this
      ensures View() == Next(old(View()), Return)
    {
      if !phase.InDeclared? && phase.session in txns {
        txns := txns[phase.session := txns[phase.session].(id := [], error := false)];
      }
      Settle(phase.ctl);
      phase := Idle;
    }
  }
}
