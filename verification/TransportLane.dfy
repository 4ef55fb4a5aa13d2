/**
 * A connection's writer, seen from one of its calls, is the lane that the
 * stream protocol assumes: the two models fit together.
 */
module TransportLane {

  import opened Wrappers
  import opened Protocol
  import Stream
  import opened Transport
  import opened TransportOrder

  /** The bodies of a call's frames among `frames`. */
  ghost function Bodies(frames: seq<Pending>, c: CallId): seq<Body> {
    if frames == [] then []
    else (if OfCall(frames[0], c) then [frames[0].frame.body] else []) + Bodies(frames[1..], c)
  }

  /** The bodies of a call's data frames among those accepted. */
  ghost function AcceptedData(accepted: seq<Frame>, c: CallId): seq<Body> {
    if accepted == [] then []
    else
      var f := accepted[0];
      (if f.Call? && f.callId == c && !IsControl(f) then [f.body] else []) + AcceptedData(accepted[1..], c)
  }

  /** What the writer holds for one call. */
  ghost function Project(w: Writer, c: CallId): Stream.Lane {
    Stream.Lane(Bodies(w.controls, c), Bodies(Queue(w, c), c), AcceptedData(w.accepted, c),
                |Stream.Data(Bodies(w.wire, c))|)
  }

  lemma {:induction false} BodiesConcat(a: seq<Pending>, b: seq<Pending>, c: CallId)
    ensures Bodies(a + b, c) == Bodies(a, c) + Bodies(b, c)
  {
    if a == [] {
      assert a + b == b;
    } else {
      var head := if OfCall(a[0], c) then [a[0].frame.body] else [];
      var rest := Bodies(a[1..], c);
      BodiesConcat(a[1..], b, c);
      assert (a + b)[1..] == a[1..] + b;
      assert Bodies(a + b, c) == head + (rest + Bodies(b, c));
      assert Bodies(a, c) == head + rest;
      assert head + (rest + Bodies(b, c)) == (head + rest) + Bodies(b, c);
    }
  }

  lemma BodiesSnoc(frames: seq<Pending>, p: Pending, c: CallId)
    ensures Bodies(frames + [p], c) == if OfCall(p, c) then Bodies(frames, c) + [p.frame.body] else Bodies(frames, c)
  {
    BodiesConcat(frames, [p], c);
    assert [p][1..] == [];
    assert Bodies([p], c) == if OfCall(p, c) then [p.frame.body] else [];
  }

  lemma {:induction false} AcceptedSnoc(accepted: seq<Frame>, f: Frame, c: CallId)
    ensures AcceptedData(accepted + [f], c) ==
            if f.Call? && f.callId == c && !IsControl(f) then AcceptedData(accepted, c) + [f.body]
            else AcceptedData(accepted, c)
  {
    if accepted == [] {
      assert [f][1..] == [];
    } else {
      assert (accepted + [f])[0] == accepted[0] && (accepted + [f])[1..] == accepted[1..] + [f];
      AcceptedSnoc(accepted[1..], f, c);
    }
  }

  lemma {:induction false} BodiesOfQueue(queue: seq<Pending>, c: CallId)
    requires forall p <- queue :: OfCall(p, c)
    ensures |Bodies(queue, c)| == |queue|
    ensures forall i :: 0 <= i < |queue| ==> queue[i].frame.Call? && Bodies(queue, c)[i] == queue[i].frame.body
  {
    if queue != [] {
      assert queue[0] in queue;
      assert forall p <- queue[1..] :: p in queue;
      BodiesOfQueue(queue[1..], c);
    }
  }

  lemma QueueOfCall(w: Writer, c: CallId)
    requires Consistent(w)
    ensures forall p <- Queue(w, c) :: OfCall(p, c)
    ensures c in w.calls ==> (HasOpen(w.calls[c]) <==> Open in Bodies(Queue(w, c), c))
    ensures c !in w.calls ==> Bodies(Queue(w, c), c) == []
  {
    assert forall p <- Queue(w, c) :: c in w.calls && p in w.calls[c];
    BodiesOfQueue(Queue(w, c), c);
    if c in w.calls && HasOpen(w.calls[c]) {
      var i :| 0 <= i < |w.calls[c]| && w.calls[c][i].frame.Call? && w.calls[c][i].frame.body.Open?;
      assert Bodies(Queue(w, c), c)[i] == Open;
    }
  }

  lemma EnqueueProjects(w: Writer, c: CallId, body: Body)
    requires !body.Cancel? || Bodies(Queue(w, c), c) == []
    ensures Project(Enqueue(w, Call(c, body)), c) ==
            if IsControlBody(body) then Project(w, c).(control := Project(w, c).control + [body])
            else Project(w, c).(call := Project(w, c).call + [body], log := Project(w, c).log + [body])
  {
    var p := Pending(|w.accepted|, Call(c, body));
    AcceptedSnoc(w.accepted, Call(c, body), c);
    if IsControlBody(body) {
      BodiesSnoc(w.controls, p, c);
    } else {
      assert Queue(Enqueue(w, Call(c, body)), c) == Queue(w, c) + [p];
      BodiesSnoc(Queue(w, c), p, c);
    }
  }

  lemma EnqueueElsewhere(w: Writer, frame: Frame, c: CallId)
    requires !(frame.Call? && frame.callId == c)
    ensures Project(Enqueue(w, frame), c) == Project(w, c)
  {
    AcceptedSnoc(w.accepted, frame, c);
    if IsControl(frame) {
      BodiesSnoc(w.controls, Pending(|w.accepted|, frame), c);
    } else {
      assert Queue(Enqueue(w, frame), c) == Queue(w, c);
    }
  }

  /** Handing the writer a frame of the call is what the protocol calls submitting it. */
  lemma SendIsSubmit(w: Writer, c: CallId, body: Body)
    requires Consistent(w) && !w.closed
    ensures Project(AfterSend(w, Call(c, body), true, false).0, c) == Stream.Submit(Project(w, c), body)
  {
    QueueOfCall(w, c);
    if body.Cancel? {
      var w1 := DropCall(w, c);
      assert Queue(w1, c) == [];
      assert Project(w1, c) == Project(w, c).(call := []);
      EnqueueProjects(w1, c, body);
    } else {
      EnqueueProjects(w, c, body);
    }
  }

  /** Frames of other calls, and of the session, do not concern it. */
  lemma SendElsewhere(w: Writer, frame: Frame, up: bool, large: bool, c: CallId)
    requires Consistent(w) && !(frame.Call? && frame.callId == c)
    ensures Project(AfterSend(w, frame, up, large).0, c) == Project(w, c)
  {
    if !w.closed && up {
      var w1 := if IsCancel(frame) then DropCall(w, frame.callId) else w;
      assert Queue(w1, c) == Queue(w, c);
      EnqueueElsewhere(w1, frame, c);
    }
  }

  /** The call's next frame goes to the wire. */
  ghost predicate Transmits(w: Writer, w': Writer, c: CallId) {
    && Stream.CanTransmit(Project(w, c))
    && Project(w', c) == Stream.Transmitted(Project(w, c))
    && Bodies(w'.wire, c) == Bodies(w.wire, c) + [Stream.NextBody(Project(w, c))]
  }

  ghost predicate Stutters(w: Writer, w': Writer, c: CallId) {
    Project(w', c) == Project(w, c) && Bodies(w'.wire, c) == Bodies(w.wire, c)
  }

  lemma ControlTurn(w: Writer, c: CallId)
    requires Consistent(w) && w.active == None && !w.closed && w.controls != []
    ensures Transmits(w, Turn(w), c) || Stutters(w, Turn(w), c)
  {
    var p := w.controls[0];
    assert p in w.controls;
    BodiesSnoc(w.wire, p, c);
    var rest := Bodies(w.controls[1..], c);
    if OfCall(p, c) {
      Stream.DataSnoc(Bodies(w.wire, c), p.frame.body);
      assert IsControlBody(p.frame.body);
      assert Project(w, c).control == [p.frame.body] + rest;
      assert ([p.frame.body] + rest)[1..] == rest;
    } else {
      assert Project(w, c).control == [] + rest == rest;
    }
  }

  lemma DataTurn(w: Writer, c: CallId)
    requires Consistent(w) && w.active == None && !w.closed && w.controls == [] && w.order != []
    ensures Transmits(w, Turn(w), c) || Stutters(w, Turn(w), c)
  {
    var d, p := w.order[0], Dequeue(w).0.value;
    TurnOfData(w, c);
    BodiesSnoc(w.wire, p, c);
    assert d in w.calls && p in w.calls[d];
    if c == d {
      Stream.DataSnoc(Bodies(w.wire, c), p.frame.body);
      assert Queue(w, c) == [p] + Queue(Turn(w), c);
      assert Queue(w, c)[1..] == Queue(Turn(w), c);
      var rest := Bodies(Queue(Turn(w), c), c);
      assert Project(w, c).call == [p.frame.body] + rest;
      assert ([p.frame.body] + rest)[1..] == rest;
    } else {
      assert Queue(w, c) == Queue(Turn(w), c);
    }
  }

  /** A turn of the draining loop transmits the call's next frame, control frames first, or leaves the call alone. */
  lemma TurnIsTransmit(w: Writer, c: CallId)
    requires Consistent(w) && w.active == None
    ensures Transmits(w, Turn(w), c) || Stutters(w, Turn(w), c)
  {
    if w.closed || (w.controls == [] && w.order == []) {
    } else if w.controls != [] {
      ControlTurn(w, c);
    } else {
      DataTurn(w, c);
    }
  }

  ghost predicate Submits(w: Writer, w': Writer, c: CallId, frame: Frame) {
    && frame.Call? && frame.callId == c && w'.wire == w.wire
    && Project(w', c) == Stream.Submit(Project(w, c), frame.body)
  }

  lemma SendFits(w: Writer, frame: Frame, up: bool, large: bool, c: CallId)
    requires Consistent(w) && !w.closed && !(large && IsCancel(frame))
    ensures var w' := AfterSend(w, frame, up, large).0;
            Stutters(w, w', c) || Submits(w, w', c, frame)
  {
    if frame.Call? && frame.callId == c {
      if up && !large { SendIsSubmit(w, c, frame.body); }
    } else {
      SendElsewhere(w, frame, up, large, c);
    }
  }

  /**
   * While it is open, all a writer does for a call is to submit and to transmit.
   * A cancel is never over the size limit.
   */
  lemma WriterIsLane(w: Writer, op: Op, c: CallId)
    requires Consistent(w) && Enabled(w, op) && !w.closed && !Apply(w, op).closed
    requires op.SendFrame? ==> !(op.large && IsCancel(op.frame))
    ensures var w' := Apply(w, op);
            Stutters(w, w', c) || Transmits(w, w', c) || (op.SendFrame? && Submits(w, w', c, op.frame))
  {
    match op
    case SendFrame(frame, up, large) => SendFits(w, frame, up, large, c);
    case StartDrain => TurnIsTransmit(w, c);
    case SocketWrote(ok) =>
      var w1 := w.(active := None, settled := Settle(w.settled, {w.active.value.id}, Sent));
      TurnIsTransmit(w1, c);
    case CloseWriter =>
  }
}
