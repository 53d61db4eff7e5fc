/**
 The receiver link as the library changes it in place: each method is one stretch of the
 event handling between two callbacks, proved against the link's specification.
 */
module ReceiverAdapter {
  import opened Common
  import opened ReceiverCredit
  import opened ReceiverDeliveries

  class Receiver {
    var window: nat
    var credit: int
    var pending: nat
    var draining: bool
    var drain: bool
    var localClosed: bool
    var remoteClosed: bool
    var deliveries: seq<Progress>
    var head: nat
    var events: seq<Event>
    var phase: Phase

    ghost function View(): Link
      reads this
    {
      Link(window, credit, pending, draining, drain, localClosed, remoteClosed, deliveries, head, events, phase)
    }

    /**
     Deliveries and events are in order, credit covers what waits, and the peer is asked to drain
     only during a drain.
     */
    ghost predicate Valid()
      reads this
    {
      LinkInv(View())
    }

    constructor (creditWindow: nat)
      ensures Valid() && View() == Opened(creditWindow).link
    {
      window, credit, pending := creditWindow, 0, 0;
      draining, drain, localClosed, remoteClosed := false, false, false, false;
      deliveries, head, events, phase := [], 0, [], Opening;
    }

    /** `on_link_remote_open`, after the callback. */
    method AfterOpen()
      requires Valid() && phase == Opening
      modifies this
      ensures Valid() && View() == Step(old(View()), Resume)
      ensures window > 0 ==> credit == window
    {
      LinkInvKept(View(), Resume);
      CreditTopup();
      phase := Idle;
    }

    /** `receiver::add_credit`. */
    method AddCredit(n: nat)
      requires Valid()
      modifies this
      ensures Valid() && View() == Step(old(View()), Action.AddCredit(n))
    {
      LinkInvKept(View(), Action.AddCredit(n));
      if draining {
        pending := pending + n;
      } else {
        credit := credit + n;
      }
    }

    /** `receiver::drain`. */
    method Drain() returns (r: Outcome)
      requires Valid()
      modifies this
      ensures Valid() && View() == Step(old(View()), Action.Drain)
      ensures r.Refused? <==> old(draining)
    {
      LinkInvKept(View(), Action.Drain);
      if draining {
        return Refused;
      }
      draining := true;
      if credit + pending > 0 {
        drain := true;
      } else {
        PutEvent(Flowed);
      }
      return Done;
    }

    method PutEvent(e: Event)
      modifies this`events
      ensures events == Put(old(events), e)
    {
      if events == [] || events[|events| - 1] != e {
        events := events + [e];
      }
    }

    /** `pn_link_advance` on a receiver. */
    method LinkAdvance()
      modifies this`credit, this`head
      ensures View() == Advance(old(View()))
    {
      if head < |deliveries| {
        credit := credit - 1;
        head := head + 1;
      }
    }

    method CreditTopup()
      modifies this`credit
      ensures View() == ToppedUp(old(View()))
    {
      if window != 0 {
        var delta := window - credit;
        credit := credit + delta;
      }
    }

    method FinishDrain(p: Phase)
      modifies this`draining, this`drain, this`phase
      ensures View() == Finish(old(View()), p)
    {
      draining := false;
      drain := false;
      phase := p;
    }

    /** `on_link_flow`, up to the callback or to its end. */
    method OnLinkFlow()
      requires Valid() && phase == Idle && events != [] && events[0].Flowed?
      modifies this
      ensures Valid() && View() == Step(old(View()), Handle)
    {
      LinkInvKept(View(), Handle);
      events := events[1..];
      if !localClosed && !remoteClosed {
        if credit == 0 && draining {
          FinishDrain(FlowFinish);
        } else {
          CreditTopup();
        }
      }
    }

    /** The aborted branch of `on_delivery`. */
    method DropAborted(id: nat)
      modifies this`credit, this`head, this`phase
      ensures View() == AbortHandled(old(View()), id).(phase := AtEnd)
    {
      if id == head {
        LinkAdvance();
      }
      credit := credit + 1;
      LinkAdvance();
      phase := AtEnd;
    }

    /** `on_delivery` for a receiver, up to `on_message` or to the checks at its end. */
    method OnDelivery()
      requires Valid() && phase == Idle && events != [] && events[0].Delivered?
      modifies this
      ensures Valid() && View() == Step(old(View()), Handle)
    {
      LinkInvKept(View(), Handle);
      var id := events[0].id;
      events := events[1..];
      if deliveries[id] == Aborted {
        DropAborted(id);
      } else if deliveries[id] == Complete && id == head {
        LinkAdvance();
        phase := if localClosed then AtEnd else InMessage;
      } else {
        phase := AtEnd;
      }
    }

    /** `on_delivery` after `on_message` returns. */
    method AfterMessage()
      requires Valid() && phase == InMessage
      modifies this
      ensures Valid() && View() == Step(old(View()), Resume)
    {
      LinkInvKept(View(), Resume);
      if draining && credit == 0 {
        FinishDrain(MessageFinish);
      } else {
        phase := AtEnd;
      }
    }

    /** The checks at the end of `on_delivery`. */
    method AtEndOfDelivery()
      requires Valid() && phase == AtEnd
      modifies this
      ensures Valid() && View() == Step(old(View()), Resume)
      ensures window > 0 && phase == Idle ==> credit == window
    {
      LinkInvKept(View(), Resume);
      if draining && credit == 0 {
        FinishDrain(EndFinish);
      } else {
        CreditTopup();
        phase := Idle;
      }
    }

    /** The rest of `on_delivery` after the finish callback at its end. */
    method AfterEndFinish()
      requires Valid() && phase == EndFinish
      modifies this
      ensures Valid() && View() == Step(old(View()), Resume)
    {
      LinkInvKept(View(), Resume);
      if pending > 0 {
        credit := credit + pending;
        pending := 0;
      }
      CreditTopup();
      phase := Idle;
    }

    /** The rest of `on_link_flow` after the finish callback. */
    method AfterFlowFinish()
      requires Valid() && phase == FlowFinish
      modifies this
      ensures Valid() && View() == Step(old(View()), Resume)
    {
      LinkInvKept(View(), Resume);
      CreditTopup();
      phase := Idle;
    }
  }
}
