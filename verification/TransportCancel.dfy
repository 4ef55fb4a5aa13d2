/** A cancel never reaches the peer before, or without, the open of its call. */
module TransportCancel {

  import opened Wrappers
  import opened Protocol
  import opened Transport
  import opened TransportOrder

  ghost predicate OpensCall(p: Pending, c: CallId) { OfCall(p, c) && p.frame.body.Open? }

  ghost predicate CancelsCall(p: Pending, c: CallId) { OfCall(p, c) && p.frame.body.Cancel? }

  /** The peer has been, or is about to be, told of the call. */
  ghost predicate Announced(line: seq<Pending>, c: CallId) {
    exists i :: 0 <= i < |line| && OpensCall(line[i], c)
  }

  /** No cancel reaches the peer before, or without, the open of its call. */
  ghost predicate OpenFirst(line: seq<Pending>) {
    forall i, c :: 0 <= i < |line| && CancelsCall(line[i], c) ==> Announced(line[..i], c)
  }

  /** A cancel is submitted for a call whose open is on the wire or still queued. */
  ghost predicate Proper(w: Writer, op: Op) {
    op.SendFrame? && IsCancel(op.frame) && op.up && !op.large && !w.closed ==>
      Announced(w.wire, op.frame.callId) || HasOpen(Queue(w, op.frame.callId))
  }

  lemma CommittedStep(w: Writer, op: Op)
    requires Inv(w) && Enabled(w, op)
    ensures var w' := Apply(w, op);
            || (Committed(w') <= Committed(w) && !(op.SendFrame? && IsCancel(op.frame) && w'.accepted != w.accepted))
            || (exists p ::
                  && Committed(w') == Committed(w) + [p]
                  && if op.SendFrame? && IsCancel(op.frame)
                     then p.frame == op.frame && op.up && !op.large && !w.closed
                          && !HasOpen(Queue(w, op.frame.callId))
                     else !IsCancel(p.frame))
  {
    var w' := Apply(w, op);
    if op.SendFrame? {
      if !w.closed && op.up {
        var w1 := if IsCancel(op.frame) then DropCall(w, op.frame.callId) else w;
        assert Committed(w1) == Committed(w);
        if w' != w1 {
          var p := Pending(|w.accepted|, op.frame);
          if IsControl(op.frame) {
            assert Committed(w') == Committed(w) + [p];
          } else {
            assert Committed(w') == Committed(w);
          }
        }
      }
    } else if op.CloseWriter? {
    } else if op.StartDrain? {
      TurnCommitted(w);
    } else if op.ok {
      var w1 := w.(active := None, settled := Settle(w.settled, {w.active.value.id}, Sent));
      assert Committed(w1) == Committed(w);
      TurnCommitted(w1);
    }
  }

  lemma TurnCommitted(w: Writer)
    requires Consistent(w) && w.active == None
    ensures || Committed(Turn(w)) == Committed(w)
            || exists p :: Committed(Turn(w)) == Committed(w) + [p] && !IsCancel(p.frame)
  {
    if w.closed || Dequeue(w).0 == None {
    } else if w.controls != [] {
      TurnOfControl(w);
    } else {
      TurnOfData(w, w.order[0]);
      var p := Dequeue(w).0.value;
      assert p in w.calls[w.order[0]];
      assert Committed(Turn(w)) == Committed(w) + [p];
    }
  }

  lemma OpenFirstPrefix(line: seq<Pending>, line': seq<Pending>)
    requires OpenFirst(line) && line' <= line
    ensures OpenFirst(line')
  {
    forall i, c | 0 <= i < |line'| && CancelsCall(line'[i], c) ensures Announced(line'[..i], c) {
      assert line'[i] == line[i] && line'[..i] == line[..i];
    }
  }

  lemma OpenFirstAppend(line: seq<Pending>, p: Pending)
    requires OpenFirst(line)
    ensures OpenFirst(line + [p]) <==> (IsCancel(p.frame) ==> Announced(line, p.frame.callId))
  {
    var line', n := line + [p], |line|;
    assert line'[n] == p && line'[..n] == line;
    assert forall i :: 0 <= i < n ==> line'[i] == line[i] && line'[..i] == line[..i];
    if IsCancel(p.frame) {
      assert CancelsCall(line'[n], p.frame.callId);
    }
  }

  lemma AnnouncedOnWire(w: Writer, c: CallId)
    requires Consistent(w)
    ensures Announced(Committed(w), c) <==> Announced(w.wire, c)
  {
    var line := Committed(w);
    forall i | |w.wire| <= i < |line| ensures !OpensCall(line[i], c) {
      assert line[i] == w.controls[i - |w.wire|];
    }
    assert forall i :: 0 <= i < |w.wire| ==> w.wire[i] == line[i];
    if Announced(w.wire, c) {
      var i :| 0 <= i < |w.wire| && OpensCall(w.wire[i], c);
      assert line[i] == w.wire[i];
    }
  }

  /** Exactly the improper steps spoil the order of opens and cancels. */
  lemma OpenFirstStep(w: Writer, op: Op)
    requires Inv(w) && Enabled(w, op) && OpenFirst(Committed(w))
    ensures OpenFirst(Committed(Apply(w, op))) <==> Proper(w, op)
  {
    var line, line' := Committed(w), Committed(Apply(w, op));
    CommittedStep(w, op);
    if op.SendFrame? && IsCancel(op.frame) { AnnouncedOnWire(w, op.frame.callId); }
    if line' <= line {
      OpenFirstPrefix(line, line');
    } else {
      var p := line'[|line|];
      assert line' == line + [p];
      OpenFirstAppend(line, p);
    }
  }

  /**
   * Over a whole run, no cancel goes out before or without its open if and only
   * if every cancel was submitted while its open was queued or on the wire.
   */
  lemma {:induction false} CancelsFollowOpens(states: seq<Writer>, ops: seq<Op>)
    requires IsRun(states, ops) && states[0] == IDLE
    ensures (forall k :: 0 <= k < |states| ==> OpenFirst(Committed(states[k])))
       <==> (forall k :: 0 <= k < |ops| ==> Proper(states[k], ops[k]))
  {
    if ops != [] {
      var n := |ops| - 1;
      assert IsRun(states[..n + 1], ops[..n]);
      CancelsFollowOpens(states[..n + 1], ops[..n]);
      RunInv(states, ops, n);
      assert forall k :: 0 <= k < n ==> ops[..n][k] == ops[k] && states[..n + 1][k] == states[k];
      assert states[..n + 1][n] == states[n];
      if OpenFirst(Committed(states[n])) {
        OpenFirstStep(states[n], ops[n]);
      }
      assert forall k :: 0 <= k < |states| ==> k == n + 1 || states[..n + 1][k] == states[k];
      assert forall k :: 0 <= k < |ops| ==> k == n || ops[..n][k] == ops[k];
      if forall k :: 0 <= k < |states| ==> OpenFirst(Committed(states[k])) {
        assert OpenFirst(Committed(states[n])) && OpenFirst(Committed(states[n + 1]));
      }
    }
  }

  // --- A rule for callers ---------------------------------------------------------

  predicate Opens(op: Op, c: CallId) { op.SendFrame? && op.frame == Call(c, Open) && op.up && !op.large }

  predicate Cancels(op: Op, c: CallId) { op.SendFrame? && op.frame == Call(c, Cancel) && op.up }

  ghost predicate OpenedBefore(ops: seq<Op>, n: nat, c: CallId)
    requires n <= |ops|
  {
    exists i :: 0 <= i < n && Opens(ops[i], c)
  }

  ghost predicate CancelledBefore(ops: seq<Op>, n: nat, c: CallId)
    requires n <= |ops|
  {
    exists i :: 0 <= i < n && Cancels(ops[i], c)
  }

  /** Callers cancel a call at most once, and only after they opened it. */
  ghost predicate CallerRule(ops: seq<Op>) {
    forall j, c :: 0 <= j < |ops| && Cancels(ops[j], c) ==> OpenedBefore(ops, j, c) && !CancelledBefore(ops, j, c)
  }

  /** The open of the call is on the wire or queued. */
  ghost predicate Known(w: Writer, c: CallId) { Announced(w.wire, c) || HasOpen(Queue(w, c)) }

  lemma AnnouncedStays(line: seq<Pending>, line': seq<Pending>, c: CallId)
    requires Announced(line, c) && line <= line'
    ensures Announced(line', c)
  {
    var i :| 0 <= i < |line| && OpensCall(line[i], c);
    assert OpensCall(line'[i], c);
  }

  lemma OpenAppended(queue: seq<Pending>, p: Pending)
    requires HasOpen(queue) || (p.frame.Call? && p.frame.body.Open?)
    ensures HasOpen(queue + [p])
  {
    if HasOpen(queue) {
      var i :| 0 <= i < |queue| && queue[i].frame.Call? && queue[i].frame.body.Open?;
      assert (queue + [p])[i] == queue[i];
    } else {
      assert (queue + [p])[|queue|] == p;
    }
  }

  lemma OpenTaken(queue: seq<Pending>)
    requires HasOpen(queue)
    ensures (queue[0].frame.Call? && queue[0].frame.body.Open?) || HasOpen(queue[1..])
  {
    var i :| 0 <= i < |queue| && queue[i].frame.Call? && queue[i].frame.body.Open?;
    assert i > 0 ==> queue[1..][i - 1] == queue[i];
  }

  lemma KnownTurn(w: Writer, c: CallId)
    requires Consistent(w) && w.active == None && !w.closed && Known(w, c)
    ensures Known(Turn(w), c)
  {
    var w' := Turn(w);
    if Announced(w.wire, c) {
      AnnouncedStays(w.wire, w'.wire, c);
    } else if w.controls == [] && w.order != [] {
      TurnOfData(w, c);
      if c == w.order[0] {
        assert Queue(w, c)[1..] == Queue(w', c);
        OpenTaken(Queue(w, c));
        assert w'.wire[|w.wire|] == Queue(w, c)[0];
        assert Queue(w, c)[0].frame.body.Open? ==> OpensCall(w'.wire[|w.wire|], c);
      }
    } else {
      assert Queue(w', c) == Queue(w, c);
    }
  }

  lemma KnownSend(w: Writer, op: Op, c: CallId)
    requires Consistent(w) && !w.closed && op.SendFrame? && !Cancels(op, c)
    requires Known(w, c) || Opens(op, c)
    ensures Known(Apply(w, op), c)
  {
    var w' := Apply(w, op);
    if op.up {
      var w1 := if IsCancel(op.frame) then DropCall(w, op.frame.callId) else w;
      assert Queue(w1, c) == Queue(w, c) && w'.wire == w.wire;
      var p := Pending(|w.accepted|, op.frame);
      if !op.large && !IsControl(op.frame) && op.frame.callId == c {
        assert Queue(w', c) == Queue(w, c) + [p];
        if !Announced(w.wire, c) { OpenAppended(Queue(w, c), p); }
      } else {
        assert Queue(w', c) == Queue(w, c);
      }
    }
  }

  lemma KnownStep(w: Writer, op: Op, c: CallId)
    requires Consistent(w) && Enabled(w, op) && !w.closed && !Apply(w, op).closed && !Cancels(op, c)
    requires Known(w, c) || Opens(op, c)
    ensures Known(Apply(w, op), c)
  {
    match op
    case SendFrame(_, _, _) => KnownSend(w, op, c);
    case StartDrain => KnownTurn(w, c);
    case SocketWrote(ok) =>
      var w1 := w.(active := None, settled := Settle(w.settled, {w.active.value.id}, Sent));
      assert Queue(w1, c) == Queue(w, c);
      KnownTurn(w1, c);
    case CloseWriter =>
  }

  /** What a step does to the knowledge of a call, unless it cancels it. */
  ghost predicate Carries(w: Writer, op: Op, w': Writer, c: CallId) {
    !w'.closed ==> !w.closed && (!Cancels(op, c) && (Known(w, c) || Opens(op, c)) ==> Known(w', c))
  }

  lemma NextCarries(states: seq<Writer>, ops: seq<Op>, n: nat, c: CallId)
    requires IsRun(states, ops) && n < |ops|
    ensures Carries(states[n], ops[n], states[n + 1], c)
  {
    var w, op := states[n], ops[n];
    StepKeeps(w, op);
    if !states[n + 1].closed && !Cancels(op, c) && (Known(w, c) || Opens(op, c)) {
      KnownStep(w, op, c);
    }
  }

  lemma {:induction false} ChainKnown(states: seq<Writer>, ops: seq<Op>, n: nat, c: CallId)
    requires |states| == |ops| + 1 && n <= |ops|
    requires forall i :: 0 <= i < |ops| ==> Carries(states[i], ops[i], states[i + 1], c)
    requires !states[n].closed && OpenedBefore(ops, n, c) && !CancelledBefore(ops, n, c)
    ensures Known(states[n], c)
  {
    var i :| 0 <= i < n && Opens(ops[i], c);
    assert Carries(states[n - 1], ops[n - 1], states[n - 1 + 1], c);
    if i < n - 1 {
      ChainKnown(states, ops, n - 1, c);
    }
    assert !Cancels(ops[n - 1], c);
  }

  lemma OpenedIsKnown(states: seq<Writer>, ops: seq<Op>, n: nat, c: CallId)
    requires IsRun(states, ops) && n <= |ops| && !states[n].closed
    requires OpenedBefore(ops, n, c) && !CancelledBefore(ops, n, c)
    ensures Known(states[n], c)
  {
    forall i | 0 <= i < |ops| ensures Carries(states[i], ops[i], states[i + 1], c) {
      NextCarries(states, ops, i, c);
    }
    ChainKnown(states, ops, n, c);
  }

  /** Callers that follow the rule never send a cancel ahead of its open. */
  lemma CallerRuleSuffices(states: seq<Writer>, ops: seq<Op>)
    requires IsRun(states, ops) && states[0] == IDLE && CallerRule(ops)
    ensures forall k :: 0 <= k < |ops| ==> Proper(states[k], ops[k])
    ensures forall k :: 0 <= k < |states| ==> OpenFirst(Committed(states[k]))
  {
    forall k | 0 <= k < |ops| ensures Proper(states[k], ops[k]) {
      var op := ops[k];
      if op.SendFrame? && IsCancel(op.frame) && op.up && !states[k].closed {
        assert Cancels(op, op.frame.callId);
        RunInv(states, ops, k);
        OpenedIsKnown(states, ops, k, op.frame.callId);
      }
    }
    CancelsFollowOpens(states, ops);
  }

  /** Two cancels in a row: the first withdraws the queued open, the second goes out alone. */
  lemma SecondCancelGoesAlone(c: CallId)
    ensures var w0 := AfterSend(IDLE, Call(c, Open), true, false).0;
            var w1 := AfterSend(w0, Call(c, Cancel), true, false).0;
            var w2 := AfterSend(w1, Call(c, Cancel), true, false).0;
            w1.wire == w1.controls == [] && !OpenFirst(Committed(w2))
  {
    var w0 := AfterSend(IDLE, Call(c, Open), true, false).0;
    assert HasOpen(w0.calls[c]) by { assert w0.calls[c][0].frame == Call(c, Open); }
    var w1 := AfterSend(w0, Call(c, Cancel), true, false).0;
    var w2 := AfterSend(w1, Call(c, Cancel), true, false).0;
    assert CancelsCall(Committed(w2)[0], c) && Committed(w2)[..0] == [];
  }
}
