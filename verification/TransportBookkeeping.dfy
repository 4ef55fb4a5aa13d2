/** Where each frame accepted by the writer is, at every moment. */
module TransportBookkeeping {

  import opened Protocol
  import opened Transport

  ghost function ActiveIds(w: Writer): set<nat> {
    if w.active.Some? && w.active.value.id !in w.settled then {w.active.value.id} else {}
  }

  ghost predicate Increasing(frames: seq<Pending>) {
    forall i, j :: 0 <= i < j < |frames| ==> frames[i].id < frames[j].id
  }

  /**
   * Each accepted frame is in exactly one place: waiting among the controls,
   * waiting in its call's queue, at the socket, or settled. Settling keeps the
   * first outcome only, so no frame is settled twice.
   */
  ghost predicate Located(w: Writer) {
    var c, q, a, s := Ids(w.controls), QueuedIds(w.calls), ActiveIds(w), w.settled.Keys;
    && c !! q !! a !! s
    && (forall id: nat :: id in c || id in q || id in a || id in s <==> id < |w.accepted|)
    && (w.active.Some? ==> w.active.value.id < |w.accepted|)
    && (w.closed ==> a == {})
  }

  ghost predicate Genuine(accepted: seq<Frame>, p: Pending) {
    p.id < |accepted| && p.frame == accepted[p.id]
  }

  /** What waits is what was accepted, each queue in the order of acceptance. */
  ghost predicate Sorted(w: Writer) {
    && Increasing(w.controls)
    && (forall d :: d in w.calls ==> Increasing(w.calls[d]))
    && (forall p <- w.controls :: Genuine(w.accepted, p))
    && (forall d, p :: d in w.calls && p in w.calls[d] ==> Genuine(w.accepted, p))
  }

  lemma SettleTwice(settled: map<nat, Settlement>, a: set<nat>, b: set<nat>, how: Settlement)
    ensures Settle(Settle(settled, a, how), b, how) == Settle(settled, a + b, how)
  {
  }

  lemma SettleOne(settled: map<nat, Settlement>, id: nat, how: Settlement)
    ensures Settle(settled, {id}, how) == if id in settled then settled else settled[id := how]
  {
  }

  lemma SettleNext(settled: map<nat, Settlement>, frames: seq<Pending>, i: nat, how: Settlement)
    requires i < |frames|
    ensures var done := Settle(settled, Ids(frames[..i]), how);
            Settle(settled, Ids(frames[..i + 1]), how) ==
            if frames[i].id in done then done else done[frames[i].id := how]
  {
    assert frames[..i + 1] == frames[..i] + [frames[i]];
    assert Ids(frames[..i + 1]) == Ids(frames[..i]) + {frames[i].id};
    SettleTwice(settled, Ids(frames[..i]), {frames[i].id}, how);
    SettleOne(Settle(settled, Ids(frames[..i]), how), frames[i].id, how);
  }

  lemma QueuedIdsOf(calls: map<CallId, seq<Pending>>, c: CallId)
    requires c in calls
    ensures QueuedIds(calls) == QueuedIds(calls - {c}) + Ids(calls[c])
  {
    forall id | id in QueuedIds(calls)
      ensures id in QueuedIds(calls - {c}) + Ids(calls[c])
    {
      var d, p :| d in calls && p in calls[d] && p.id == id;
      if d != c { assert d in calls - {c}; assert p in (calls - {c})[d]; }
    }
    forall id | id in QueuedIds(calls - {c})
      ensures id in QueuedIds(calls)
    {
      var d, p :| d in calls - {c} && p in (calls - {c})[d] && p.id == id;
      assert p in calls[d];
    }
  }

  lemma QueuedIdsElsewhere(w: Writer, c: CallId)
    requires Consistent(w) && Sorted(w) && c in w.calls
    ensures QueuedIds(w.calls - {c}) !! Ids(w.calls[c])
  {
    forall id | id in QueuedIds(w.calls - {c})
      ensures id !in Ids(w.calls[c])
    {
      var d, p :| d in w.calls - {c} && p in (w.calls - {c})[d] && p.id == id;
      assert p in w.calls[d] && Genuine(w.accepted, p);
      assert forall q <- w.calls[c] :: Genuine(w.accepted, q);
    }
  }

  lemma DropCallLocated(w: Writer, callId: CallId)
    requires Consistent(w) && Located(w) && Sorted(w)
    ensures Located(DropCall(w, callId)) && Sorted(DropCall(w, callId))
  {
    if callId in w.calls {
      QueuedIdsOf(w.calls, callId);
      QueuedIdsElsewhere(w, callId);
    }
  }

  lemma EnqueueControlIds(w: Writer, frame: Frame)
    requires IsControl(frame)
    ensures Ids(Enqueue(w, frame).controls) == Ids(w.controls) + {|w.accepted|} && Enqueue(w, frame).calls == w.calls
  {
  }

  lemma EnqueueDataIds(w: Writer, frame: Frame)
    requires !IsControl(frame)
    ensures var w' := Enqueue(w, frame);
            QueuedIds(w'.calls) == QueuedIds(w.calls) + {|w.accepted|} && w'.controls == w.controls
  {
    var w', p, c := Enqueue(w, frame), Pending(|w.accepted|, frame), frame.callId;
    var queue := if c in w.calls then w.calls[c] else [];
    QueuedIdsOf(w'.calls, c);
    assert w'.calls - {c} == w.calls - {c};
    assert Ids(queue + [p]) == Ids(queue) + {p.id};
    if c in w.calls { QueuedIdsOf(w.calls, c); } else { assert w.calls - {c} == w.calls; }
  }

  lemma EnqueueLocated(w: Writer, frame: Frame)
    requires Consistent(w) && Located(w) && !w.closed
    ensures Located(Enqueue(w, frame))
  {
    if IsControl(frame) { EnqueueControlIds(w, frame); } else { EnqueueDataIds(w, frame); }
  }

  lemma AppendSorted(accepted: seq<Frame>, queue: seq<Pending>, frame: Frame)
    requires Increasing(queue) && forall p <- queue :: Genuine(accepted, p)
    ensures var p := Pending(|accepted|, frame);
            Increasing(queue + [p]) && forall x <- queue + [p] :: Genuine(accepted + [frame], x)
  {
    assert forall i :: 0 <= i < |queue| ==> Genuine(accepted, queue[i]);
    forall x <- queue ensures Genuine(accepted + [frame], x) { assert Genuine(accepted, x); }
  }

  lemma EnqueueSorted(w: Writer, frame: Frame)
    requires Consistent(w) && Sorted(w)
    ensures Sorted(Enqueue(w, frame))
  {
    var w' := Enqueue(w, frame);
    if IsControl(frame) {
      AppendSorted(w.accepted, w.controls, frame);
    } else {
      AppendSorted(w.accepted, if frame.callId in w.calls then w.calls[frame.callId] else [], frame);
    }
    forall p <- w'.controls ensures Genuine(w'.accepted, p) {
      if p in w.controls { assert Genuine(w.accepted, p); }
    }
    forall d, p | d in w'.calls && p in w'.calls[d] ensures Genuine(w'.accepted, p) {
      if d in w.calls && p in w.calls[d] { assert Genuine(w.accepted, p); }
    }
  }

  lemma CloseLocated(w: Writer)
    requires Consistent(w) && Located(w)
    ensures Located(AfterClose(w)) && Sorted(AfterClose(w)) && AfterClose(w).wire == w.wire
    ensures forall id: nat :: id in AfterClose(w).settled <==> id < |w.accepted|
  {
    assert w.closed ==> w.calls.Keys == {};
  }

  lemma HeadIds(queue: seq<Pending>)
    requires queue != []
    ensures Ids(queue) == {queue[0].id} + Ids(queue[1..])
    ensures Increasing(queue) ==> queue[0].id !in Ids(queue[1..])
  {
    assert queue == [queue[0]] + queue[1..];
  }

  lemma DequeueControlIds(w: Writer)
    requires Consistent(w) && Sorted(w) && w.controls != []
    ensures var (p, w') := Dequeue(w);
            && p.Some? && w' == w.(controls := w'.controls)
            && Ids(w.controls) == Ids(w'.controls) + {p.value.id} && p.value.id !in Ids(w'.controls)
  {
    HeadIds(w.controls);
  }

  /** What is queued after the head of one queue is taken. */
  lemma QueuedIdsTail(w: Writer, c: CallId)
    requires Consistent(w) && Sorted(w) && c in w.calls
    ensures var queue := w.calls[c];
            var calls' := if |queue| == 1 then w.calls - {c} else w.calls[c := queue[1..]];
            && QueuedIds(w.calls) == QueuedIds(calls') + {queue[0].id}
            && queue[0].id !in QueuedIds(calls')
  {
    var queue := w.calls[c];
    HeadIds(queue);
    QueuedIdsOf(w.calls, c);
    QueuedIdsElsewhere(w, c);
    assert queue[0].id in Ids(queue);
    if |queue| > 1 {
      var calls' := w.calls[c := queue[1..]];
      QueuedIdsOf(calls', c);
      assert calls' - {c} == w.calls - {c};
    }
  }

  lemma DequeueIds(w: Writer)
    requires Consistent(w) && Sorted(w) && !w.closed
    ensures var (p, w') := Dequeue(w);
            && w' == w.(controls := w'.controls, calls := w'.calls, order := w'.order)
            && (p.Some? && w.controls != [] ==>
                  w'.calls == w.calls
                  && Ids(w.controls) == Ids(w'.controls) + {p.value.id} && p.value.id !in Ids(w'.controls))
            && (p.Some? && w.controls == [] ==>
                  w'.controls == []
                  && QueuedIds(w.calls) == QueuedIds(w'.calls) + {p.value.id} && p.value.id !in QueuedIds(w'.calls))
  {
    if w.controls != [] {
      DequeueControlIds(w);
    } else if w.order != [] {
      QueuedIdsTail(w, w.order[0]);
    }
  }

  lemma DequeueLocated(w: Writer)
    requires Consistent(w) && Located(w) && Sorted(w) && !w.closed && ActiveIds(w) == {}
    ensures var (p, w') := Dequeue(w);
            p.Some? ==> Located(w'.(active := p)) && p.value.id !in w.settled
  {
    DequeueIds(w);
  }

  lemma DequeueSorted(w: Writer)
    requires Consistent(w) && Sorted(w) && !w.closed
    ensures Sorted(Dequeue(w).1)
    ensures Dequeue(w).0.Some? ==> Genuine(w.accepted, Dequeue(w).0.value)
  {
    var (p, w') := Dequeue(w);
    forall d, x | d in w'.calls && x in w'.calls[d]
      ensures Genuine(w'.accepted, x)
    {
      assert x in w.calls[d] && Genuine(w.accepted, x);
    }
    if w.controls == [] && w.order != [] {
      assert w.calls[w.order[0]][0] == p.value;
    }
  }
}
