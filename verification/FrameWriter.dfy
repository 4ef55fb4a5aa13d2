/** The frame writer as the runtime keeps it. */
module FrameWriter {

  import opened Wrappers
  import opened Protocol
  import opened Transport
  import opened TransportBookkeeping
  import opened TransportOrder

  class FrameWriter {
    var controls: seq<Pending>
    var calls: map<CallId, seq<Pending>>
    var order: seq<CallId>
    var active: Option<Pending>
    var draining: bool
    var closed: bool
    var settled: map<nat, Settlement>
    ghost var accepted: seq<Frame>
    var count: nat
    var wire: seq<Pending>

    ghost function View(): Writer
      reads this
    {
      Writer(controls, calls, order, active, draining, closed, accepted, wire, settled)
    }

    ghost predicate Valid()
      reads this
    {
      Inv(View()) && count == |accepted|
    }

    constructor ()
      ensures Valid() && View() == IDLE
    {
      controls, calls, order, active, draining, closed := [], map[], [], None, false, false;
      settled, accepted, count, wire := map[], [], 0, [];
      new;
      IdleInv();
    }

    method Send(frame: Frame, up: bool, large: bool) returns (r: SendResult)
      requires Valid()
      modifies this
      ensures Valid()
      ensures (View(), r) == AfterSend(old(View()), frame, up, large)
    {
      SendInv(View(), frame, up, large);
      if closed || !up {
        return NotConnected;
      }
      if frame.Call? && frame.body.Cancel? {
        var unopened := CancelQueuedCall(frame.callId);
        if unopened {
          return Cancelled;
        }
      }
      if large {
        return TooLarge;
      }
      r := Accepted(count);
      Append(frame);
    }

    method Append(frame: Frame)
      requires Consistent(View()) && count == |accepted|
      modifies this`controls, this`calls, this`order, this`draining, this`accepted, this`count
      ensures View() == Enqueue(old(View()), frame) && count == |accepted|
    {
      var p := Pending(count, frame);
      if IsControl(frame) {
        controls := controls + [p];
      } else {
        var c := frame.callId;
        if c !in calls {
          order := order + [c];
          calls := calls[c := [p]];
        } else {
          calls := calls[c := calls[c] + [p]];
        }
      }
      accepted, count := accepted + [frame], count + 1;
      if !draining {
        draining := true;
      }
    }

    method CancelQueuedCall(callId: CallId) returns (unopened: bool)
      requires Valid()
      modifies this`calls, this`order, this`settled
      ensures View() == DropCall(old(View()), callId)
      ensures callId in old(calls) ==>
                forall p <- old(calls)[callId] :: p.id in settled && (p.id !in old(settled) ==> settled[p.id] == Withdrawn)
      ensures Consistent(View())
      ensures unopened == (callId in old(calls) && HasOpen(old(calls)[callId]))
    {
      DropCallOk(View(), callId);
      if callId !in calls {
        return false;
      }
      var queue := calls[callId];
      unopened := HasOpen(queue);
      calls := calls - {callId};
      order := Without(order, callId);
      RejectAll(queue, Withdrawn);
    }

    /** Call the reject function of each frame's promise. */
    method RejectAll(frames: seq<Pending>, how: Settlement)
      modifies this`settled
      ensures settled == Settle(old(settled), Ids(frames), how)
    {
      assert settled == Settle(settled, Ids(frames[..0]), how);
      for i := 0 to |frames|
        invariant settled == Settle(old(settled), Ids(frames[..i]), how)
      {
        SettleNext(old(settled), frames, i, how);
        if frames[i].id !in settled {
          settled := settled[frames[i].id := how];
        }
      }
      assert frames[..|frames|] == frames;
    }

    method Close()
      requires Valid()
      modifies this
      ensures Valid() && View() == AfterClose(old(View())) && count == old(count)
    {
      CloseInv(View());
      if !closed {
        Shut();
      }
    }

    method Shut()
      requires !closed
      modifies this`closed, this`settled, this`controls, this`calls, this`order
      ensures View() == AfterClose(old(View()))
    {
      closed := true;
      RejectWaiting();
      assert WaitingIds(View()) == WaitingIds(old(View()));
      controls := [];
      calls := map[];
      order := [];
    }

    method RejectWaiting()
      modifies this`settled
      ensures settled == Settle(old(settled), WaitingIds(View()), ConnectionClosed)
    {
      ghost var a := if active.Some? then {active.value.id} else {};
      if active.Some? {
        assert Ids([active.value]) == a;
        RejectAll([active.value], ConnectionClosed);
      }
      assert settled == Settle(old(settled), a, ConnectionClosed);
      RejectAll(controls, ConnectionClosed);
      SettleTwice(old(settled), a, Ids(controls), ConnectionClosed);
      RejectCalls();
      SettleTwice(old(settled), a + Ids(controls), QueuedIds(calls), ConnectionClosed);
    }

    method RejectCalls()
      modifies this`settled
      ensures settled == Settle(old(settled), QueuedIds(calls), ConnectionClosed)
    {
      var todo := calls.Keys;
      assert QueuedIds(calls - todo) == {};
      assert settled == Settle(settled, {}, ConnectionClosed);
      while todo != {}
        invariant todo <= calls.Keys
        invariant settled == Settle(old(settled), QueuedIds(calls - todo), ConnectionClosed)
      {
        var c :| c in todo;
        RejectAll(calls[c], ConnectionClosed);
        var rest := todo - {c};
        QueuedIdsOf(calls - rest, c);
        assert (calls - rest) - {c} == calls - todo;
        SettleTwice(old(settled), QueuedIds(calls - todo), Ids(calls[c]), ConnectionClosed);
        todo := rest;
      }
      assert calls - {} == calls;
    }

    method Next() returns (p: Option<Pending>)
      requires Consistent(View())
      modifies this`controls, this`calls, this`order
      ensures (p, View()) == Dequeue(old(View()))
    {
      if |controls| > 0 {
        p := Some(controls[0]);
        controls := controls[1..];
        return;
      }
      if |order| == 0 {
        return None;
      }
      var callId := order[0];
      order := order[1..];
      var queue := calls[callId];
      p := Some(queue[0]);
      queue := queue[1..];
      if |queue| == 0 {
        calls := calls - {callId};
      } else {
        calls := calls[callId := queue];
        order := order + [callId];
      }
    }

    /** Up to the next await of the draining loop. */
    method Drain()
      requires Valid() && draining && active == None
      modifies this
      ensures Valid() && View() == Turn(old(View()))
    {
      TurnInv(View());
      TakeTurn();
    }

    method TakeTurn()
      requires Consistent(View()) && active == None
      modifies this`controls, this`calls, this`order, this`active, this`draining, this`wire
      ensures View() == Turn(old(View()))
    {
      if !closed {
        var pending := Next();
        if pending.Some? {
          active := pending;
          wire := wire + [pending.value];
          return;
        }
      }
      active := None;
      draining := false;
    }

    /** Call the resolve function of the active frame's promise. */
    method Resolve()
      requires active.Some?
      modifies this`settled, this`active
      ensures active == None && settled == Settle(old(settled), {old(active).value.id}, Sent)
    {
      SettleOne(settled, active.value.id, Sent);
      if active.value.id !in settled {
        settled := settled[active.value.id := Sent];
      }
      active := None;
    }

    /** The socket has written the active frame, or failed to. */
    method SocketWrote(ok: bool)
      requires Valid() && active.Some?
      modifies this
      ensures Valid() && View() == Wrote(old(View()), ok)
    {
      WroteInv(View(), ok);
      if ok {
        SettledInv(View());
        Resolve();
        Drain();
      } else {
        Shutdown();
      }
    }

    method Shutdown()
      requires Valid() && active.Some?
      modifies this
      ensures View() == Wrote(old(View()), false) && count == old(count)
    {
      Close();
      active := None;
      draining := false;
    }
  }
}
