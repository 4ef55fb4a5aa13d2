/**
 * The server's side of a call, as the runtime keeps it: one object per accepted
 * `call.open`. Every method takes the step that the stream protocol gives to it,
 * so what is proved of the protocol holds of this object. The method's result is
 * the frame handed to the writer.
 */
module ServerSession {

  import opened Wrappers
  import opened Protocol
  import opened Flow
  import S = Stream

  class ServerCall {
    const kind: S.Kind
    const input: AsyncQueue<Payload>
    const credit: CreditWindow
    var inputAllowance: int
    var inputSequence: nat
    var inputClosed: bool
    var outputSequence: nat
    var outputClosed: bool
    var terminal: bool
    var removed: bool
    /** The chain of serialized output operations, and what the first of them waits for. */
    var sending: seq<S.Request>
    var busy: S.Busy
    var handlerDone: bool
    /** The terminal frame was refused as too large and is being replaced. */
    var replacing: bool
    ghost var fate: S.Fate
    ghost var final: Option<Body>
    ghost var regranted: nat
    ghost var produced: seq<Payload>

    ghost predicate Valid()
      reads this, input, credit
    {
      && input.Valid() && credit.Valid()
      && (terminal <==> fate != S.Running)
    }

    ghost function View(): (s: S.Server)
      reads this, input, credit
      requires Valid()
    {
      S.Server(true, handlerDone, S.Ending(fate, final, replacing, removed),
               S.Receiver(inputAllowance, inputSequence, inputClosed, input.View(), regranted),
               S.ServerOutput(credit.View(), outputSequence, outputClosed, sending, busy, produced))
    }

    /** A `call.open` that is not rejected. */
    constructor (k: S.Kind)
      ensures Valid() && S.FreshServer(View()) && kind == k
      ensures View().end == S.Ending(S.Running, None, false, false)
      ensures fresh(input) && fresh(credit)
    {
      kind := k;
      input := new AsyncQueue<Payload>();
      credit := new CreditWindow();
      inputAllowance, inputSequence, inputClosed := 0, 0, false;
      outputSequence, outputClosed, terminal, removed := 0, false, false, false;
      sending, busy, handlerDone, replacing := [], S.Idle, false, false;
      fate, final, regranted, produced := S.Running, None, 0, [];
    }

    /** Start the handler, or answer a request that does not validate. */
    method Start(valid: bool) returns (frame: Option<Body>)
      requires Valid() && S.FreshServer(View()) && !terminal && final == None
      modifies this, input, credit
      ensures Valid()
      ensures S.ServerTurn(View(), frame) == S.ServerOpen(kind, old(View()), if valid then S.Accept else S.BadRequest)
    {
      if !valid {
        frame := Fail(S.Invalid, false);
        return;
      }
      if kind.HasInput() {
        inputAllowance := INITIAL_STREAM_CREDIT;
        frame := Some(Body.Window(FromClient, INITIAL_STREAM_CREDIT));
      } else {
        frame := None;
      }
    }

    method ReceiveWindow(direction: Direction, n: int) returns (frame: Option<Body>)
      requires Valid()
      modifies this, input, credit
      ensures Valid() && S.ServerTurn(View(), frame) == S.ServerWindow(kind, old(View()), direction, n)
    {
      frame := None;
      if !kind.HasOutput() || direction != FromServer {
        frame := Fail(S.Fate.Protocol, false);
        return;
      }
      var ok := credit.Grant(n);
      if !ok {
        frame := Fail(S.Fate.Protocol, false);
      }
    }

    method ReceiveItem(direction: Direction, seqNo: nat, payload: Payload, valid: bool) returns (frame: Option<Body>)
      requires Valid()
      modifies this, input, credit
      ensures Valid() && S.ServerTurn(View(), frame) == S.ServerItem(kind, old(View()), direction, seqNo, payload, valid)
    {
      frame := None;
      if !kind.HasInput() || direction != FromClient || inputClosed || inputAllowance <= 0 || seqNo != inputSequence {
        frame := Fail(S.Fate.Protocol, false);
        return;
      }
      if !valid {
        frame := Fail(S.Invalid, false);
        return;
      }
      inputAllowance := inputAllowance - 1;
      inputSequence := inputSequence + 1;
      input.Push(payload);
    }

    method ReceiveEnd(direction: Direction) returns (frame: Option<Body>)
      requires Valid()
      modifies this, input, credit
      ensures Valid() && S.ServerTurn(View(), frame) == S.ServerEnd(kind, old(View()), direction)
    {
      frame := None;
      if !kind.HasInput() || direction != FromClient || inputClosed {
        frame := Fail(S.Fate.Protocol, false);
        return;
      }
      inputClosed := true;
      input.Close();
    }

    /** The session's dispatch of a frame for a call it knows; one it has removed is dropped. */
    method Handle(body: Body, valid: bool) returns (frame: Option<Body>)
      requires Valid()
      modifies this, input, credit
      ensures Valid() && S.ServerTurn(View(), frame) == S.ServerReceive(kind, old(View()), body, valid, S.Accept)
      ensures body.Cancel? && !old(removed) ==> terminal
      ensures body.Cancel? && !old(removed) && !old(terminal) ==>
                frame == Some(Error) && fate == S.Local && credit.closed && input.failed
    {
      frame := None;
      if removed {
        return;
      }
      match body
      case Open => frame := Fail(S.Fate.Protocol, false);
      case Cancel => frame := Fail(S.Local, false);
      case Window(d, n) => frame := ReceiveWindow(d, n);
      case Item(d, n, v) => frame := ReceiveItem(d, n, v, valid);
      case End(d) => frame := ReceiveEnd(d);
      case Result => frame := Fail(S.Fate.Protocol, false);
      case Error => frame := Fail(S.Fate.Protocol, false);
    }

    method Fail(how: S.Fate, large: bool) returns (frame: Option<Body>)
      requires Valid() && how != S.Running
      modifies this, input, credit
      ensures Valid() && S.ServerTurn(View(), frame) == S.ServerFail(old(View()), how, large)
    {
      frame := Finish(Error, how, large);
    }

    /** The connection is gone. */
    method Disconnect()
      requires Valid()
      modifies this, input, credit
      ensures Valid() && View() == S.ServerDisconnect(old(View()))
    {
      var first := Cleanup(S.Local);
      if first {
        removed := true;
      }
    }

    method Cleanup(how: S.Fate) returns (first: bool)
      requires Valid() && how != S.Running
      modifies this, input, credit
      ensures Valid() && first == !old(terminal)
      ensures View() == if first then S.ServerCleanup(old(View()), old(View()).end.(fate := how)) else old(View())
    {
      if terminal {
        return false;
      }
      terminal := true;
      fate := how;
      credit.Close();
      input.Fail();
      return true;
    }

    /** Up to the writer's answer: `large` when it refuses the frame for its size. */
    method Finish(answer: Body, how: S.Fate, large: bool) returns (frame: Option<Body>)
      requires Valid() && how != S.Running
      modifies this, input, credit
      ensures Valid() && S.ServerTurn(View(), frame) == S.ServerFinish(old(View()), answer, how, large)
    {
      frame := None;
      var first := Cleanup(if large then S.Local else how);
      if !first {
        return;
      }
      if large {
        replacing := true;
      } else {
        final := Some(answer);
        frame := Some(answer);
      }
    }

    /** The rest of finish after a terminal frame over the size limit. */
    method Replace() returns (frame: Option<Body>)
      requires Valid() && replacing
      modifies this
      ensures Valid() && S.ServerTurn(View(), frame) == S.ServerReplace(old(View()))
    {
      replacing := false;
      final := Some(Error);
      frame := Some(Error);
    }

    method Remove()
      requires Valid()
      modifies this
      ensures Valid() && View() == S.ServerRemove(old(View())) && removed && terminal == old(terminal)
    {
      removed := true;
    }

    /** The handler asks for its next input item: up to the wait for one. */
    method NextInput() returns (ticket: nat)
      requires Valid()
      modifies input
      ensures Valid() && View() == S.ServerNext(old(View())) && ticket == old(input.View().asked)
    {
      ticket := input.Next();
    }

    /** An item was handed over: allow one more. */
    method ResumeInput() returns (frame: Option<Body>)
      requires Valid()
      modifies this
      ensures Valid() && S.ServerTurn(View(), frame) == S.ServerResume(old(View()))
    {
      regranted := regranted + 1;
      if terminal {
        return None;
      }
      if !inputClosed {
        inputAllowance := inputAllowance + 1;
        return Some(Body.Window(FromClient, 1));
      }
      return None;
    }

    /** Put an output operation at the end of the chain. */
    method Serialize(operation: S.Request)
      requires Valid()
      modifies this
      ensures Valid() && View() == S.ServerAsk(old(View()), operation)
    {
      sending := sending + [operation];
    }

    /** Begin the chain's next operation; `accepted` data frames were submitted before. */
    method Advance(accepted: nat, valid: bool) returns (frame: Option<Body>)
      requires Valid() && sending != []
      modifies this, input, credit
      ensures Valid() && S.ServerTurn(View(), frame) == S.ServerTakeUp(kind, old(View()), accepted, valid)
    {
      var operation := sending[0];
      sending := sending[1..];
      frame := None;
      if terminal || outputClosed {
        return;
      }
      match operation
      case SendItem(v) =>
        if valid {
          var _ := credit.Acquire();
          busy := S.AwaitCredit(v);
        } else if !kind.Duplex? {
          frame := Fail(S.Invalid, false);
        }
      case CloseOutput =>
        outputClosed := true;
        busy := S.AwaitWritten(accepted + 1, false);
        frame := Some(End(FromServer));
    }

    /** The rest of sendOutput after its wait for credit. */
    method ContinueOutput(accepted: nat, large: bool) returns (frame: Option<Body>)
      requires Valid() && busy.AwaitCredit?
      modifies this, input, credit
      ensures Valid() && S.ServerTurn(View(), frame) == S.ServerContinue(old(View()), accepted, large)
    {
      var v := busy.v;
      busy := S.Idle;
      frame := None;
      if terminal {
        return;
      }
      if large {
        frame := Fail(S.Local, false);
      } else {
        busy := S.AwaitWritten(accepted + 1, true);
        produced := produced + [v];
        frame := Some(Item(FromServer, outputSequence, v));
      }
    }

    /** The writer reports the awaited frame written. */
    method Written()
      requires Valid() && busy.AwaitWritten?
      modifies this
      ensures Valid() && View() == S.ServerWritten(old(View()))
    {
      if busy.item {
        outputSequence := outputSequence + 1;
      }
      busy := S.Idle;
    }

    /** The handler is through. */
    method HandlerReturned()
      requires Valid()
      modifies this
      ensures Valid() && View() == S.ServerReturn(kind, old(View()))
    {
      handlerDone := true;
      if kind.HasOutput() {
        Serialize(S.CloseOutput);
      }
    }
  }
}
