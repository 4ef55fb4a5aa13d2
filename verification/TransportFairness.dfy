/** Calls are served in turn. */
module TransportFairness {

  import opened Wrappers
  import opened Protocol
  import opened Transport
  import opened TransportOrder

  /** The call whose data frame this step hands to the socket. */
  ghost function Served(w: Writer, op: Op): Option<CallId>
    requires Consistent(w) && Enabled(w, op)
  {
    if (op.StartDrain? || (op.SocketWrote? && op.ok)) && !w.closed && w.controls == [] && w.order != []
    then Some(w.order[0]) else None
  }

  /** The calls served along a run, in order. */
  ghost function ServedCalls(states: seq<Writer>, ops: seq<Op>): (r: seq<CallId>)
    requires IsRun(states, ops)
  {
    if ops == [] then []
    else
      var n := |ops| - 1;
      assert IsRun(states[..n + 1], ops[..n]);
      ServedCalls(states[..n + 1], ops[..n])
      + match Served(states[n], ops[n]) case Some(c) => [c] case None => []
  }

  /** The step neither cancels call c nor closes the writer. */
  ghost predicate Spares(op: Op, c: CallId) {
    !op.CloseWriter? && !(op.SocketWrote? && !op.ok)
    && !(op.SendFrame? && IsCancel(op.frame) && op.frame.callId == c)
  }

  /** The calls ahead of c. */
  function Ahead(order: seq<CallId>, c: CallId): set<CallId> {
    if order == [] || order[0] == c then {} else {order[0]} + Ahead(order[1..], c)
  }

  lemma AheadAppend(order: seq<CallId>, c: CallId, d: CallId)
    requires c in order
    ensures Ahead(order + [d], c) == Ahead(order, c)
  {
    if order[0] != c {
      assert (order + [d])[1..] == order[1..] + [d];
    }
  }

  lemma AheadWithout(order: seq<CallId>, c: CallId, d: CallId)
    requires c in order && c != d
    ensures c in Without(order, d) && Ahead(Without(order, d), c) <= Ahead(order, c)
  {
    if order[0] != c && order[0] != d {
      var rest := Without(order[1..], d);
      assert ([order[0]] + rest)[1..] == rest;
    }
  }

  lemma AheadIn(order: seq<CallId>, c: CallId)
    ensures forall d <- Ahead(order, c) :: d in order && d != c
  {
  }

  lemma AheadSize(order: seq<CallId>, p: nat)
    requires NoDuplicates(order) && p < |order|
    ensures |Ahead(order, order[p])| == p
  {
    if p > 0 {
      assert order[0] != order[p];
      AheadSize(order[1..], p - 1);
      AheadIn(order[1..], order[p]);
      assert order[0] !in order[1..];
    }
  }

  lemma AheadStep(w: Writer, op: Op, c: CallId)
    requires Consistent(w) && Enabled(w, op) && Spares(op, c) && c in w.order && !w.closed && Served(w, op) != Some(c)
    ensures c in Apply(w, op).order && !Apply(w, op).closed
    ensures match Served(w, op)
            case Some(d) => d in Ahead(w.order, c) && Ahead(Apply(w, op).order, c) == Ahead(w.order, c) - {d}
            case None => Ahead(Apply(w, op).order, c) <= Ahead(w.order, c)
  {
    match op
    case SendFrame(frame, up, large) =>
      if up {
        var w1 := if IsCancel(frame) then DropCall(w, frame.callId) else w;
        if IsCancel(frame) { AheadWithout(w.order, c, frame.callId); }
        if !IsControl(frame) { AheadAppend(w1.order, c, frame.callId); }
      }
    case StartDrain => AheadTurn(w, c);
    case SocketWrote(ok) =>
      AheadTurn(w.(active := None, settled := Settle(w.settled, {w.active.value.id}, Sent)), c);
  }

  lemma AheadTurn(w: Writer, c: CallId)
    requires Consistent(w) && w.active == None && c in w.order && !w.closed && (w.controls == [] ==> w.order[0] != c)
    ensures c in Turn(w).order && !Turn(w).closed
    ensures if w.controls == [] then
              w.order[0] in Ahead(w.order, c) && Ahead(Turn(w).order, c) == Ahead(w.order, c) - {w.order[0]}
            else Turn(w).order == w.order
  {
    if w.controls == [] {
      var d, rest := w.order[0], w.order[1..];
      assert w.order == [d] + rest;
      assert d !in rest && c in rest;
      AheadAppend(rest, c, d);
      AheadIn(rest, c);
    }
  }

  lemma {:induction false} Overtakers(states: seq<Writer>, ops: seq<Op>, c: CallId)
    requires IsRun(states, ops) && Inv(states[0]) && !states[0].closed && c in states[0].order
    requires forall i :: 0 <= i < |ops| ==> Spares(ops[i], c)
    requires c !in ServedCalls(states, ops)
    ensures NoDuplicates(ServedCalls(states, ops))
    ensures c in states[|ops|].order && !states[|ops|].closed && Consistent(states[|ops|])
    ensures forall d <- ServedCalls(states, ops) :: d in Ahead(states[0].order, c) && d !in Ahead(states[|ops|].order, c)
    ensures Ahead(states[|ops|].order, c) <= Ahead(states[0].order, c)
  {
    if ops != [] {
      var n := |ops| - 1;
      assert IsRun(states[..n + 1], ops[..n]);
      Overtakers(states[..n + 1], ops[..n], c);
      AheadStep(states[n], ops[n], c);
      StepOk(states[n], ops[n]);
    }
  }

  lemma StepOk(w: Writer, op: Op)
    requires Consistent(w) && Enabled(w, op)
    ensures Consistent(Apply(w, op))
  {
    match op
    case SendFrame(frame, up, large) => SendOk(w, frame, up, large);
    case StartDrain => TurnOk(w);
    case SocketWrote(ok) => WroteOk(w, ok);
    case CloseWriter =>
  }

  /**
   * A call waiting at position p is served within the next p + 1 data frames,
   * unless it is cancelled or the writer closes; until then no other call is
   * served twice, and only calls that were ahead of it are served at all.
   */
  lemma ServedInTurn(states: seq<Writer>, ops: seq<Op>, p: nat)
    requires IsRun(states, ops) && Inv(states[0]) && !states[0].closed && p < |states[0].order|
    requires forall i :: 0 <= i < |ops| ==> Spares(ops[i], states[0].order[p])
    ensures |ServedCalls(states, ops)| > p ==> states[0].order[p] in ServedCalls(states, ops)
    ensures states[0].order[p] !in ServedCalls(states, ops) ==>
              && NoDuplicates(ServedCalls(states, ops))
              && forall d <- ServedCalls(states, ops) :: d in states[0].order[..p]
  {
    var order := states[0].order;
    var c := order[p];
    if c !in ServedCalls(states, ops) {
      Overtakers(states, ops, c);
      AheadSize(order, p);
      DistinctWithin(ServedCalls(states, ops), Ahead(order, c));
      AheadPrefix(order, p);
    }
  }

  lemma AheadPrefix(order: seq<CallId>, p: nat)
    requires NoDuplicates(order) && p < |order|
    ensures forall d <- Ahead(order, order[p]) :: d in order[..p]
  {
    if p > 0 {
      AheadPrefix(order[1..], p - 1);
      assert order[..p] == [order[0]] + order[1..][..p - 1];
      assert order[0] != order[p];
    }
  }
}
