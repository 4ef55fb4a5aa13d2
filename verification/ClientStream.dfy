/**
 * The client's side of a call with an output stream, as the runtime keeps it:
 * one object whose fields the methods update, with a queue to the consumer and
 * a credit window for its input. Every method takes the step that the stream
 * protocol gives to it, so what is proved of the protocol holds of this object.
 */
module ClientStream {

  import opened Wrappers
  import opened Protocol
  import opened Flow
  import S = Stream

  class ServerStreamState {
    const kind: S.Kind
    const queue: AsyncQueue<Payload>
    const credit: CreditWindow
    var allowance: int
    var expectedSequence: nat
    var ended: bool
    var terminal: bool
    var sequence: nat
    var closed: bool
    /** The items of the calls of send, and how many of those calls went on after their wait. */
    var requests: seq<Payload>
    var continued: nat
    ghost var ready: bool
    ghost var fate: S.Fate
    ghost var regranted: nat
    ghost var produced: seq<Payload>

    ghost predicate Valid()
      reads this, queue, credit
    {
      && kind.HasOutput()
      && queue.Valid() && credit.Valid()
      && (terminal <==> fate != S.Running) && (terminal <==> credit.closed) && (terminal <==> queue.ended)
    }

    ghost function View(): (c: S.Client)
      reads this, queue, credit
      requires Valid()
    {
      S.Client(ready, fate,
               S.Receiver(allowance, expectedSequence, ended, queue.View(), regranted),
               S.ClientInput(credit.View(), requests, continued, sequence, closed, produced))
    }

    /** `Valid` and `View` are built on two objects that stay the same. */
    constructor (k: S.Kind)
      requires k.HasOutput()
      ensures Valid() && S.FreshClient(View()) && kind == k
      ensures fresh(queue) && fresh(credit)
    {
      kind := k;
      queue := new AsyncQueue<Payload>();
      credit := new CreditWindow();
      allowance, expectedSequence, ended, terminal := 0, 0, false, false;
      sequence, closed, requests, continued := 0, false, [], 0;
      ready, fate, regranted, produced := false, S.Running, 0, [];
    }

    /** `call.open` was written: grant the first items. */
    method Opened() returns (frame: Option<Body>)
      requires Valid()
      modifies this
      ensures Valid() && S.ClientTurn(View(), frame) == S.ClientOpened(kind, old(View()))
    {
      allowance := allowance + INITIAL_STREAM_CREDIT;
      ready := true;
      frame := Some(Body.Window(FromServer, INITIAL_STREAM_CREDIT));
    }

    /** Up to the wait for credit; the ticket is the place in line. `None`: the input is closed or missing. */
    method SendInput(item: Payload) returns (ticket: Option<nat>)
      requires Valid()
      modifies this, credit
      ensures Valid()
      ensures ticket == if kind.HasInput() && !old(closed) then Some(old(credit.View().issued)) else None
      ensures View() == if kind.HasInput() then S.ClientSend(old(View()), item) else old(View())
    {
      if !kind.HasInput() || closed {
        return None;
      }
      var t := credit.Acquire();
      requests := requests + [item];
      ticket := Some(t);
    }

    /** The next send in line got its credit. */
    method ContinueInput(large: bool) returns (frame: Option<Body>)
      requires Valid() && continued < |requests|
      modifies this, queue, credit
      ensures Valid() && S.ClientTurn(View(), frame) == S.ClientContinue(old(View()), large)
    {
      var item := requests[continued];
      continued := continued + 1;
      if terminal {
        return None;
      }
      var claimed := sequence;
      sequence := sequence + 1;
      if large {
        frame := Abort();
      } else {
        produced := produced + [item];
        frame := Some(Item(FromClient, claimed, item));
      }
    }

    /** A call without an input stream is refused, and nothing changes. */
    method CloseInput() returns (frame: Option<Body>)
      requires Valid()
      modifies this
      ensures Valid()
      ensures S.ClientTurn(View(), frame) ==
              if kind.HasInput() then S.ClientCloseInput(old(View())) else S.ClientTurn(old(View()), None)
    {
      if !kind.HasInput() || closed || terminal {
        return None;
      }
      closed := true;
      frame := Some(End(FromClient));
    }

    method ReceiveWindow(direction: Direction, n: int)
      requires Valid()
      modifies this, queue, credit
      ensures Valid() && View() == S.ClientWindow(kind, old(View()), direction, n)
    {
      if !kind.HasInput() || direction != FromClient {
        Fail(S.Fate.Protocol);
        return;
      }
      var ok := credit.Grant(n);
      if !ok {
        Fail(S.Fate.Protocol);
      }
    }

    /** The consumer asks for an item: up to the wait for one. */
    method Next() returns (ticket: nat)
      requires Valid()
      modifies queue
      ensures Valid() && View() == S.ClientNext(old(View())) && ticket == old(queue.View().asked)
    {
      ticket := queue.Next();
    }

    /** The consumer was handed an item: allow one more. */
    method Resume() returns (frame: Option<Body>)
      requires Valid()
      modifies this
      ensures Valid() && S.ClientTurn(View(), frame) == S.ClientResume(old(View()))
    {
      regranted := regranted + 1;
      if !ended && !terminal {
        allowance := allowance + 1;
        return Some(Body.Window(FromServer, 1));
      }
      return None;
    }

    method ReceiveItem(direction: Direction, seqNo: nat, payload: Payload, valid: bool)
      requires Valid()
      modifies this, queue, credit
      ensures Valid() && View() == S.ClientItem(kind, old(View()), direction, seqNo, payload, valid)
    {
      if terminal || direction != FromServer {
        Fail(S.Fate.Protocol);
        return;
      }
      if ended || allowance <= 0 {
        Fail(S.Fate.Protocol);
        return;
      }
      if seqNo != expectedSequence {
        Fail(S.Fate.Protocol);
        return;
      }
      allowance := allowance - 1;
      expectedSequence := expectedSequence + 1;
      if !valid {
        Fail(S.Invalid);
        return;
      }
      queue.Push(payload);
    }

    method ReceiveEnd(direction: Direction)
      requires Valid()
      modifies this, queue, credit
      ensures Valid() && View() == S.ClientEnd(kind, old(View()), direction)
    {
      if terminal || direction != FromServer || ended {
        Fail(S.Fate.Protocol);
        return;
      }
      ended := true;
    }

    method ReceiveResult()
      requires Valid()
      modifies this, queue, credit
      ensures Valid() && View() == S.ClientResult(kind, old(View()))
    {
      if terminal {
        return;
      }
      if !ended {
        Fail(S.Fate.Protocol);
        return;
      }
      terminal := true;
      fate := S.Completed;
      credit.Close();
      queue.Close();
    }

    method Fail(how: S.Fate)
      requires Valid() && how != S.Running
      modifies this, queue, credit
      ensures Valid() && View() == S.ClientFail(old(View()), how)
    {
      if terminal {
        return;
      }
      terminal := true;
      fate := how;
      credit.Close();
      queue.Fail();
    }

    method Cancel() returns (frame: Option<Body>)
      requires Valid()
      modifies this, queue, credit
      ensures Valid() && S.ClientTurn(View(), frame) == S.ClientCancel(old(View()))
      ensures terminal && (old(terminal) ==> frame == None)
      ensures !old(terminal) ==> frame == Some(Body.Cancel) && credit.closed && queue.ended && !queue.failed
    {
      if terminal {
        return None;
      }
      terminal := true;
      fate := S.Local;
      credit.Close();
      queue.Close();
      frame := Some(Body.Cancel);
    }

    method Abort() returns (frame: Option<Body>)
      requires Valid()
      modifies this, queue, credit
      ensures Valid() && S.ClientTurn(View(), frame) == S.ClientAbort(old(View()))
      ensures terminal && (old(terminal) ==> frame == None)
      ensures !old(terminal) ==> frame == Some(Body.Cancel) && credit.closed && queue.failed
    {
      if terminal {
        return None;
      }
      terminal := true;
      fate := S.Local;
      credit.Close();
      queue.Fail();
      frame := Some(Body.Cancel);
    }

    /** The client's dispatch of an incoming frame of this call. */
    method Receive(body: Body, valid: bool)
      requires Valid()
      modifies this, queue, credit
      ensures Valid() && View() == S.ClientReceive(kind, old(View()), body, valid)
    {
      match body
      case Item(d, n, v) => ReceiveItem(d, n, v, valid);
      case End(d) => ReceiveEnd(d);
      case Window(d, n) => ReceiveWindow(d, n);
      case Result => ReceiveResult();
      case Error => Fail(S.Remote);
      case Open =>
      case Cancel =>
    }
  }
}
