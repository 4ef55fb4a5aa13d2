/** The order in which the writer brings frames to the wire, and its whole invariant. */
module TransportOrder {

  import opened Wrappers
  import opened Protocol
  import opened Transport
  import opened TransportBookkeeping

  ghost predicate OfCall(p: Pending, c: CallId) { p.frame.Call? && p.frame.callId == c }

  ghost function Of(frames: seq<Pending>, c: CallId): seq<Pending> { Filter(frames, p => OfCall(p, c)) }

  function Queue(w: Writer, c: CallId): seq<Pending> { if c in w.calls then w.calls[c] else [] }

  /** What is on the wire, and what goes there before anything else. */
  ghost function Committed(w: Writer): seq<Pending> { w.wire + w.controls }

  /** A call's frames in the order in which the peer is to see them. */
  ghost function Trace(w: Writer, c: CallId): seq<Pending> { Of(Committed(w), c) + Queue(w, c) }

  /**
   * Frames keep the order of acceptance, with one exception: a window may pass
   * data frames. So data frames stay in order, and what was accepted before a
   * cancel cannot come after it.
   */
  ghost predicate Tidy(trace: seq<Pending>) {
    forall i, j :: 0 <= i < j < |trace| ==>
      || trace[i].id < trace[j].id
      || (trace[i].frame.Call? && trace[i].frame.body.Window? && !IsControl(trace[j].frame))
  }

  ghost predicate InOrder(w: Writer) {
    && (forall p <- w.wire :: Genuine(w.accepted, p))
    && (forall c :: Tidy(Trace(w, c)))
  }

  ghost predicate Inv(w: Writer) {
    Consistent(w) && Located(w) && Sorted(w) && InOrder(w)
  }

  lemma TraceIds(w: Writer, c: CallId)
    requires Sorted(w) && InOrder(w)
    ensures forall p <- Trace(w, c) :: p.id < |w.accepted|
  {
    FilterMember(Committed(w), p => OfCall(p, c));
    forall p <- Trace(w, c) ensures p.id < |w.accepted| {
      assert p in w.wire || p in w.controls || (c in w.calls && p in w.calls[c]);
      assert Genuine(w.accepted, p);
    }
  }

  lemma DropCallInOrder(w: Writer, callId: CallId)
    requires InOrder(w)
    ensures InOrder(DropCall(w, callId))
  {
    var w' := DropCall(w, callId);
    forall c ensures Tidy(Trace(w', c)) {
      assert Tidy(Trace(w, c));
      if c == callId {
        assert Trace(w', c) == Of(Committed(w), c);
        assert forall i :: 0 <= i < |Trace(w', c)| ==> Trace(w', c)[i] == Trace(w, c)[i];
      } else {
        assert Trace(w', c) == Trace(w, c);
      }
    }
  }

  lemma OfSnoc(line: seq<Pending>, p: Pending, c: CallId)
    ensures Of(line + [p], c) == if OfCall(p, c) then Of(line, c) + [p] else Of(line, c)
  {
    FilterConcat(line, [p], p => OfCall(p, c));
  }

  lemma EnqueueTrace(w: Writer, frame: Frame, c: CallId)
    ensures var p := Pending(|w.accepted|, frame);
            Trace(Enqueue(w, frame), c) ==
            if !OfCall(p, c) then Trace(w, c)
            else if IsControl(frame) then Of(Committed(w), c) + [p] + Queue(w, c)
            else Trace(w, c) + [p]
  {
    var w', p := Enqueue(w, frame), Pending(|w.accepted|, frame);
    if IsControl(frame) {
      assert Committed(w') == Committed(w) + [p];
      OfSnoc(Committed(w), p, c);
    } else {
      assert Committed(w') == Committed(w);
    }
  }

  lemma TidyInsert(front: seq<Pending>, p: Pending, back: seq<Pending>)
    requires Tidy(front + back)
    requires forall x <- front + back :: x.id < p.id
    requires back == [] || (p.frame.Call? && p.frame.body.Window? && forall x <- back :: !IsControl(x.frame))
    ensures Tidy(front + [p] + back)
  {
    var before, after := front + back, front + [p] + back;
    forall i, j | 0 <= i < j < |after|
      ensures after[i].id < after[j].id
           || (after[i].frame.Call? && after[i].frame.body.Window? && !IsControl(after[j].frame))
    {
      var n := |front|;
      if j == n {
        assert after[i] == before[i];
      } else if i == n {
        assert after[j] == back[j - n - 1];
      } else {
        assert after[i] == before[if i < n then i else i - 1];
        assert after[j] == before[if j < n then j else j - 1];
      }
    }
  }

  /** A cancel is accepted only when its call has nothing queued. */
  lemma EnqueueInOrder(w: Writer, frame: Frame)
    requires Consistent(w) && Sorted(w) && InOrder(w)
    requires IsCancel(frame) ==> frame.callId !in w.calls
    ensures InOrder(Enqueue(w, frame))
  {
    var w', p := Enqueue(w, frame), Pending(|w.accepted|, frame);
    forall x <- w'.wire ensures Genuine(w'.accepted, x) { assert Genuine(w.accepted, x); }
    forall c ensures Tidy(Trace(w', c)) {
      EnqueueTrace(w, frame, c);
      assert Tidy(Trace(w, c));
      TraceIds(w, c);
      if OfCall(p, c) {
        if IsControl(frame) {
          TidyInsert(Of(Committed(w), c), p, Queue(w, c));
        } else {
          assert Trace(w, c) + [] == Trace(w, c) && Trace(w', c) == Trace(w, c) + [p] + [];
          TidyInsert(Trace(w, c), p, []);
        }
      }
    }
  }

  lemma CloseInOrder(w: Writer)
    requires InOrder(w)
    ensures InOrder(AfterClose(w))
  {
    if !w.closed {
      var w' := AfterClose(w);
      assert Committed(w') == w.wire;
      forall c ensures Tidy(Trace(w', c)) {
        assert Tidy(Trace(w, c));
        FilterConcat(w.wire, w.controls, p => OfCall(p, c));
        assert Trace(w', c) == Of(w.wire, c);
        assert forall i :: 0 <= i < |Trace(w', c)| ==> Trace(w', c)[i] == Trace(w, c)[i];
      }
    }
  }

  lemma TurnOfControl(w: Writer)
    requires Consistent(w) && w.active == None && !w.closed && w.controls != []
    ensures Committed(Turn(w)) == Committed(w) && Turn(w).calls == w.calls
  {
    assert w.controls == [w.controls[0]] + w.controls[1..];
  }

  lemma TurnOfData(w: Writer, c: CallId)
    requires Consistent(w) && w.active == None && !w.closed && w.controls == [] && w.order != []
    ensures var w', p := Turn(w), Dequeue(w).0.value;
            && Committed(w') == Committed(w) + [p]
            && (OfCall(p, c) <==> c == w.order[0])
            && Queue(w, c) == if c == w.order[0] then [p] + Queue(w', c) else Queue(w', c)
  {
    var d, p := w.order[0], Dequeue(w).0.value;
    assert d in w.calls && p in w.calls[d];
    assert w.calls[d] == [p] + w.calls[d][1..];
  }

  lemma MoveToWire(line: seq<Pending>, p: Pending, queue: seq<Pending>, queue': seq<Pending>, c: CallId)
    requires queue == if OfCall(p, c) then [p] + queue' else queue'
    ensures Of(line + [p], c) + queue' == Of(line, c) + queue
  {
    OfSnoc(line, p, c);
    assert Of(line, c) + ([p] + queue') == Of(line, c) + [p] + queue';
  }

  /** Moving a frame to the socket changes no call's trace. */
  lemma TurnTrace(w: Writer, c: CallId)
    requires Consistent(w) && w.active == None
    ensures Trace(Turn(w), c) == Trace(w, c)
  {
    if w.closed || Dequeue(w).0 == None {
    } else if w.controls != [] {
      TurnOfControl(w);
    } else {
      TurnOfData(w, c);
      MoveToWire(Committed(w), Dequeue(w).0.value, Queue(w, c), Queue(Turn(w), c), c);
    }
  }

  lemma TurnInOrder(w: Writer)
    requires Consistent(w) && Sorted(w) && InOrder(w) && w.active == None
    ensures InOrder(Turn(w))
  {
    if !w.closed { DequeueSorted(w); }
    var w' := Turn(w);
    forall c ensures Tidy(Trace(w', c)) {
      TurnTrace(w, c);
      assert Tidy(Trace(w, c));
    }
  }

  lemma SameTraces(w: Writer, w': Writer)
    requires InOrder(w)
    requires w'.accepted == w.accepted && w'.wire == w.wire && w'.controls == w.controls && w'.calls == w.calls
    ensures InOrder(w')
  {
    assert forall c :: Trace(w', c) == Trace(w, c);
  }

  lemma SendInv(w: Writer, frame: Frame, up: bool, large: bool)
    requires Inv(w)
    ensures Inv(AfterSend(w, frame, up, large).0)
  {
    if !w.closed && up {
      var w1 := if IsCancel(frame) then DropCall(w, frame.callId) else w;
      if IsCancel(frame) {
        DropCallOk(w, frame.callId);
        DropCallLocated(w, frame.callId);
        DropCallInOrder(w, frame.callId);
      }
      EnqueueOk(w1, frame);
      EnqueueLocated(w1, frame);
      EnqueueSorted(w1, frame);
      EnqueueInOrder(w1, frame);
    }
  }

  lemma TurnInv(w: Writer)
    requires Inv(w) && w.active == None
    ensures Inv(Turn(w))
  {
    TurnOk(w);
    TurnInOrder(w);
    if !w.closed {
      DequeueSorted(w);
      DequeueLocated(w);
    }
  }

  lemma CloseInv(w: Writer)
    requires Inv(w)
    ensures Inv(AfterClose(w))
  {
    CloseLocated(w);
    CloseInOrder(w);
  }

  lemma SettledInv(w: Writer)
    requires Inv(w) && w.active.Some?
    ensures Inv(w.(active := None, settled := Settle(w.settled, {w.active.value.id}, Sent)))
  {
    SameTraces(w, w.(active := None, settled := Settle(w.settled, {w.active.value.id}, Sent)));
  }

  lemma WroteInv(w: Writer, ok: bool)
    requires Inv(w) && w.active.Some?
    ensures Inv(Wrote(w, ok))
  {
    if ok {
      var w1 := w.(active := None, settled := Settle(w.settled, {w.active.value.id}, Sent));
      SettledInv(w);
      TurnInv(w1);
    } else {
      CloseInv(w);
      SameTraces(AfterClose(w), Wrote(w, ok));
    }
  }

  lemma StepInv(w: Writer, op: Op)
    requires Inv(w) && Enabled(w, op)
    ensures Inv(Apply(w, op))
  {
    match op
    case SendFrame(frame, up, large) => SendInv(w, frame, up, large);
    case StartDrain => TurnInv(w);
    case SocketWrote(ok) => WroteInv(w, ok);
    case CloseWriter => CloseInv(w);
  }

  /** What happened stays: frames on the wire, first outcomes, and being closed. */
  lemma StepKeeps(w: Writer, op: Op)
    requires Consistent(w) && Enabled(w, op)
    ensures w.accepted <= Apply(w, op).accepted && w.wire <= Apply(w, op).wire
    ensures forall id <- w.settled :: id in Apply(w, op).settled && Apply(w, op).settled[id] == w.settled[id]
    ensures w.closed ==> Apply(w, op).closed && Apply(w, op).wire == w.wire && Apply(w, op).accepted == w.accepted
  {
    if op.StartDrain? && !w.closed { DequeueKeeps(w); }
    if op.SocketWrote? && op.ok {
      var w1 := w.(active := None, settled := Settle(w.settled, {w.active.value.id}, Sent));
      if !w.closed { DequeueKeeps(w1); }
    }
  }

  lemma DequeueKeeps(w: Writer)
    requires Consistent(w)
    ensures var w' := Dequeue(w).1; w'.wire == w.wire && w'.accepted == w.accepted && w'.settled == w.settled
  {
  }

  lemma {:induction false} RunInv(states: seq<Writer>, ops: seq<Op>, k: nat)
    requires IsRun(states, ops) && states[0] == IDLE && k <= |ops|
    ensures Inv(states[k])
  {
    if k > 0 {
      RunInv(states, ops, k - 1);
      StepInv(states[k - 1], ops[k - 1]);
    } else {
      IdleInv();
    }
  }

  lemma IdleInv()
    ensures Inv(IDLE)
  {
    assert forall c :: Trace(IDLE, c) == [];
  }

  /** Outcomes are final, and a closed writer accepts and sends nothing more. */
  ghost predicate Keeps(w: Writer, w': Writer) {
    && (forall id <- w.settled :: id in w'.settled && w'.settled[id] == w.settled[id])
    && (w.closed ==> w'.closed && w'.wire == w.wire && w'.accepted == w.accepted)
  }

  lemma {:induction false} ChainKeeps(states: seq<Writer>, m: nat, n: nat)
    requires m <= n < |states| && forall i :: 0 <= i < |states| - 1 ==> Keeps(states[i], states[i + 1])
    ensures Keeps(states[m], states[n])
  {
    if m < n {
      ChainKeeps(states, m, n - 1);
      assert Keeps(states[n - 1], states[n - 1 + 1]);
      KeepsOn(states[m], states[n - 1], states[n]);
    }
  }

  lemma RunKeeps(states: seq<Writer>, ops: seq<Op>, m: nat, n: nat)
    requires IsRun(states, ops) && m <= n <= |ops|
    ensures Keeps(states[m], states[n])
  {
    forall i | 0 <= i < |ops| ensures Keeps(states[i], states[i + 1]) {
      NextKeeps(states, ops, i);
    }
    ChainKeeps(states, m, n);
  }

  lemma NextKeeps(states: seq<Writer>, ops: seq<Op>, n: nat)
    requires IsRun(states, ops) && n < |ops|
    ensures Keeps(states[n], states[n + 1])
  {
    StepKeeps(states[n], ops[n]);
  }

  lemma KeepsOn(a: Writer, b: Writer, c: Writer)
    requires Keeps(a, b) && Keeps(b, c)
    ensures Keeps(a, c)
  {
  }

  lemma AllSettled(w: Writer)
    requires Inv(w) && w.closed
    ensures forall id: nat :: id in w.settled <==> id < |w.accepted|
  {
    assert w.calls.Keys == {};
    assert QueuedIds(w.calls) == {};
  }

  /**
   * In every run each promise is settled at most once; from the moment the
   * writer is closed on, each is settled, and nothing more is sent.
   */
  lemma SettledOnce(states: seq<Writer>, ops: seq<Op>, m: nat, n: nat)
    requires IsRun(states, ops) && states[0] == IDLE && m <= n <= |ops|
    ensures forall id <- states[m].settled :: id in states[n].settled && states[n].settled[id] == states[m].settled[id]
    ensures states[m].closed ==> states[n].closed && states[n].wire == states[m].wire
    ensures states[n].closed ==> forall id: nat :: id in states[n].settled <==> id < |states[n].accepted|
  {
    RunKeeps(states, ops, m, n);
    RunInv(states, ops, n);
    if states[n].closed {
      AllSettled(states[n]);
    }
  }

  lemma {:induction false} FilterOrder<T>(s: seq<T>, keep: T -> bool, i: nat, j: nat) returns (a: nat, b: nat)
    requires i < j < |s| && keep(s[i]) && keep(s[j])
    ensures a < b < |Filter(s, keep)| && Filter(s, keep)[a] == s[i] && Filter(s, keep)[b] == s[j]
  {
    if i > 0 {
      a, b := FilterOrder(s[1..], keep, i - 1, j - 1);
      if keep(s[0]) { a, b := a + 1, b + 1; }
    } else {
      b := FilterIndex(s[1..], keep, j - 1);
      a, b := 0, b + 1;
    }
  }

  lemma {:induction false} FilterIndex<T>(s: seq<T>, keep: T -> bool, j: nat) returns (b: nat)
    requires j < |s| && keep(s[j])
    ensures b < |Filter(s, keep)| && Filter(s, keep)[b] == s[j]
  {
    if j == 0 {
      b := 0;
    } else {
      b := FilterIndex(s[1..], keep, j - 1);
      if keep(s[0]) { b := b + 1; }
    }
  }

  /**
   * Whatever is submitted, sent, cancelled or lost, the peer sees each call's
   * frames as they were accepted, in the order of acceptance, except that a
   * window may come before data accepted earlier.
   */
  lemma WireKeepsOrder(states: seq<Writer>, ops: seq<Op>, c: CallId, i: nat, j: nat)
    requires IsRun(states, ops) && states[0] == IDLE
    requires var wire := states[|ops|].wire; i < j < |wire| && OfCall(wire[i], c) && OfCall(wire[j], c)
    ensures var wire := states[|ops|].wire;
            && Genuine(states[|ops|].accepted, wire[i]) && Genuine(states[|ops|].accepted, wire[j])
            && (wire[i].id < wire[j].id || (wire[i].frame.body.Window? && !IsControl(wire[j].frame)))
  {
    RunInv(states, ops, |ops|);
    var w := states[|ops|];
    assert w.wire[i] in w.wire && w.wire[j] in w.wire;
    assert Committed(w)[i] == w.wire[i] && Committed(w)[j] == w.wire[j];
    var a, b := FilterOrder(Committed(w), p => OfCall(p, c), i, j);
    assert Trace(w, c)[a] == w.wire[i] && Trace(w, c)[b] == w.wire[j];
    assert Tidy(Trace(w, c));
  }
}
