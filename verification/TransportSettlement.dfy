/**
 * What a settled promise tells: resolved means written to the socket, withdrawn
 * means cancelled before it got there, and anything else means that the writer
 * was closed.
 */
module TransportSettlement {

  import opened Wrappers
  import opened Protocol
  import opened Transport
  import opened TransportBookkeeping
  import opened TransportOrder

  /** What waits is not on the wire, and what the socket has is. */
  ghost predicate Apart(w: Writer) {
    && Ids(w.wire) !! Ids(w.controls) && Ids(w.wire) !! QueuedIds(w.calls)
    && (forall id <- Ids(w.wire) :: id < |w.accepted|)
    && (w.active.Some? ==> w.active.value in w.wire)
  }

  /** The frame belongs to the data of the call. */
  predicate DataOf(frame: Frame, c: CallId) { frame.Call? && frame.callId == c && !IsControl(frame) }

  /** How this step settles the promise of an accepted frame that is not settled yet. */
  ghost function Outcome(w: Writer, op: Op, id: nat): Option<Settlement> {
    if w.closed || id >= |w.accepted| then None
    else
      match op
      case StartDrain => None
      case CloseWriter => Some(ConnectionClosed)
      case SocketWrote(ok) =>
        if !ok then Some(ConnectionClosed)
        else if w.active.Some? && w.active.value.id == id then Some(Sent)
        else None
      case SendFrame(frame, up, _) =>
        if up && IsCancel(frame) && DataOf(w.accepted[id], frame.callId) && id !in Ids(w.wire) then Some(Withdrawn)
        else None
  }

  ghost predicate Settles(w: Writer, w': Writer, op: Op, id: nat) {
    && (id in w'.settled <==> Outcome(w, op, id).Some?)
    && (id in w'.settled ==> Some(w'.settled[id]) == Outcome(w, op, id))
  }

  lemma Unsettled(w: Writer, id: nat)
    requires Inv(w) && id < |w.accepted| && id !in w.settled
    ensures id in Ids(w.controls) || id in QueuedIds(w.calls) || (w.active.Some? && w.active.value.id == id)
  {
  }

  lemma QueuedIsData(w: Writer, c: CallId, id: nat)
    requires Inv(w) && Apart(w) && id < |w.accepted| && id !in w.settled
    ensures c in w.calls && id in Ids(w.calls[c]) <==> DataOf(w.accepted[id], c) && id !in Ids(w.wire)
  {
    if c in w.calls && id in Ids(w.calls[c]) {
      var p :| p in w.calls[c] && p.id == id;
      assert Genuine(w.accepted, p);
      assert id in QueuedIds(w.calls);
    }
    if DataOf(w.accepted[id], c) && id !in Ids(w.wire) {
      assert forall p <- w.controls :: Genuine(w.accepted, p) && IsControl(p.frame);
      Unsettled(w, id);
      var d, p :| d in w.calls && p in w.calls[d] && p.id == id;
      assert Genuine(w.accepted, p);
    }
  }

  lemma SendSettles(w: Writer, frame: Frame, up: bool, large: bool, id: nat)
    requires Inv(w) && Apart(w) && id !in w.settled
    ensures Settles(w, AfterSend(w, frame, up, large).0, SendFrame(frame, up, large), id)
  {
    if !w.closed && up && IsCancel(frame) {
      if id < |w.accepted| { QueuedIsData(w, frame.callId, id); }
      DropCallLocated(w, frame.callId);
    }
  }

  lemma WroteSettles(w: Writer, ok: bool, id: nat)
    requires Inv(w) && w.active.Some? && id !in w.settled
    ensures Settles(w, Wrote(w, ok), SocketWrote(ok), id)
  {
    if !ok {
      CloseSettles(w, id);
    }
  }

  lemma CloseSettles(w: Writer, id: nat)
    requires Inv(w) && id !in w.settled
    ensures Settles(w, AfterClose(w), CloseWriter, id)
  {
    if !w.closed {
      CloseLocated(w);
    }
  }

  /** In every step, a promise is settled for one reason, and for that reason only. */
  lemma StepSettles(w: Writer, op: Op, id: nat)
    requires Inv(w) && Apart(w) && Enabled(w, op) && id !in w.settled
    ensures Settles(w, Apply(w, op), op, id)
  {
    match op
    case SendFrame(frame, up, large) => SendSettles(w, frame, up, large, id);
    case StartDrain =>
    case SocketWrote(ok) => WroteSettles(w, ok, id);
    case CloseWriter => CloseSettles(w, id);
  }

  // --- What waits stays apart from what was sent ------------------------------------------------

  lemma EnqueueApart(w: Writer, frame: Frame)
    requires Apart(w) && Located(w)
    ensures Apart(Enqueue(w, frame))
  {
    if IsControl(frame) { EnqueueControlIds(w, frame); } else { EnqueueDataIds(w, frame); }
  }

  lemma SendApart(w: Writer, frame: Frame, up: bool, large: bool)
    requires Inv(w) && Apart(w)
    ensures Apart(AfterSend(w, frame, up, large).0)
  {
    if !w.closed && up {
      var w1 := if IsCancel(frame) then DropCall(w, frame.callId) else w;
      if IsCancel(frame) {
        DropCallLocated(w, frame.callId);
        if frame.callId in w.calls { QueuedIdsOf(w.calls, frame.callId); }
      }
      EnqueueApart(w1, frame);
    }
  }

  lemma IdsSnoc(wire: seq<Pending>, p: Pending)
    ensures Ids(wire + [p]) == Ids(wire) + {p.id}
  {
  }

  lemma TurnApart(w: Writer)
    requires Inv(w) && Apart(w) && w.active == None
    ensures Apart(Turn(w))
  {
    if !w.closed {
      DequeueIds(w);
      DequeueSorted(w);
      var (p, w') := Dequeue(w);
      if p.Some? {
        IdsSnoc(w.wire, p.value);
      }
    }
  }

  lemma CloseApart(w: Writer)
    requires Apart(w)
    ensures Apart(AfterClose(w))
  {
  }

  lemma StepApart(w: Writer, op: Op)
    requires Inv(w) && Apart(w) && Enabled(w, op)
    ensures Apart(Apply(w, op))
  {
    match op
    case SendFrame(frame, up, large) => SendApart(w, frame, up, large);
    case StartDrain => TurnApart(w);
    case SocketWrote(ok) =>
      if ok {
        SettledInv(w);
        TurnApart(w.(active := None, settled := Settle(w.settled, {w.active.value.id}, Sent)));
      } else {
        CloseApart(w);
      }
    case CloseWriter => CloseApart(w);
  }

  lemma {:induction false} RunApart(states: seq<Writer>, ops: seq<Op>, n: nat)
    requires IsRun(states, ops) && states[0] == IDLE && n <= |ops|
    ensures Inv(states[n]) && Apart(states[n])
  {
    if n > 0 {
      RunApart(states, ops, n - 1);
      NextApart(states, ops, n - 1);
    } else {
      IdleInv();
    }
  }

  lemma NextApart(states: seq<Writer>, ops: seq<Op>, n: nat)
    requires IsRun(states, ops) && n < |ops| && Inv(states[n]) && Apart(states[n])
    ensures Inv(states[n + 1]) && Apart(states[n + 1])
  {
    StepInv(states[n], ops[n]);
    StepApart(states[n], ops[n]);
  }

  // --- Every run ---------------------------------------------------------------------------------

  /** The step that settled the promise, and how. */
  ghost predicate SettledAt(states: seq<Writer>, ops: seq<Op>, i: nat, id: nat, how: Settlement)
    requires i < |states| && i < |ops|
  {
    id !in states[i].settled && Outcome(states[i], ops[i], id) == Some(how)
  }

  /**
   * A promise is settled exactly by the first step that has a reason to: the
   * socket wrote its frame, its call was cancelled before that, or the writer
   * was closed.
   */
  lemma {:induction false} SettledForReason(states: seq<Writer>, ops: seq<Op>, n: nat, id: nat, how: Settlement)
    requires IsRun(states, ops) && states[0] == IDLE && n <= |ops|
    ensures id in states[n].settled && states[n].settled[id] == how
       <==> exists i :: 0 <= i < n && SettledAt(states, ops, i, id, how)
  {
    if n > 0 {
      SettledForReason(states, ops, n - 1, id, how);
      RunApart(states, ops, n - 1);
      NextSettles(states, ops, n - 1, id);
      if id in states[n - 1].settled {
        assert !SettledAt(states, ops, n - 1, id, how);
      } else {
        assert SettledAt(states, ops, n - 1, id, how) <==> Outcome(states[n - 1], ops[n - 1], id) == Some(how);
      }
    }
  }

  lemma NextSettles(states: seq<Writer>, ops: seq<Op>, n: nat, id: nat)
    requires IsRun(states, ops) && n < |ops| && Inv(states[n]) && Apart(states[n])
    ensures id in states[n].settled ==> id in states[n + 1].settled && states[n + 1].settled[id] == states[n].settled[id]
    ensures id !in states[n].settled ==> Settles(states[n], states[n + 1], ops[n], id)
  {
    StepKeeps(states[n], ops[n]);
    if id !in states[n].settled { StepSettles(states[n], ops[n], id); }
  }

  // --- What a settlement tells about the wire ------------------------------------------------------

  /** What each settled promise says is so. */
  ghost predicate Truthful(w: Writer) {
    forall id <- w.settled :: Says(w, id, w.settled[id])
  }

  ghost predicate Says(w: Writer, id: nat, how: Settlement) {
    match how
    case Sent => id in Ids(w.wire) && !(w.active.Some? && w.active.value.id == id)
    case Withdrawn => id < |w.accepted| && id !in Ids(w.wire) && !IsControl(w.accepted[id])
    case ConnectionClosed => w.closed
  }

  /** Only frames whose promise is open go to the wire, and nothing leaves it. */
  ghost predicate WireGrows(w: Writer, w': Writer) {
    && w.wire <= w'.wire && w.accepted <= w'.accepted && (w.closed ==> w'.closed)
    && (forall id :: id in Ids(w'.wire) && id !in Ids(w.wire) ==> id !in w.settled)
    && (w'.active == None || w'.active == w.active || w'.active.value.id !in w.settled)
  }

  lemma TurnGrows(w: Writer)
    requires Inv(w) && w.active == None
    ensures WireGrows(w, Turn(w))
  {
    if !w.closed {
      DequeueLocated(w);
      DequeueIds(w);
      if Dequeue(w).0.Some? {
        IdsSnoc(w.wire, Dequeue(w).0.value);
      }
    }
  }

  lemma StepGrows(w: Writer, op: Op)
    requires Inv(w) && Enabled(w, op)
    ensures WireGrows(w, Apply(w, op))
  {
    match op
    case StartDrain => TurnGrows(w);
    case SocketWrote(ok) =>
      if ok {
        SettledInv(w);
        TurnGrows(w.(active := None, settled := Settle(w.settled, {w.active.value.id}, Sent)));
      }
    case _ =>
  }

  lemma OldSays(w: Writer, w': Writer, id: nat, how: Settlement)
    requires Says(w, id, how) && id in w.settled && WireGrows(w, w')
    ensures Says(w', id, how)
  {
    assert forall p <- w.wire :: p in w'.wire;
  }

  lemma NewSays(w: Writer, op: Op, id: nat)
    requires Inv(w) && Apart(w) && Enabled(w, op) && id !in w.settled && id in Apply(w, op).settled
    ensures Says(Apply(w, op), id, Apply(w, op).settled[id])
  {
    StepSettles(w, op, id);
    StepGrows(w, op);
    match op
    case SendFrame(frame, up, large) =>
    case StartDrain =>
    case SocketWrote(ok) =>
      if ok { WroteIsDone(w); }
    case CloseWriter =>
  }

  /** The frame that the socket wrote is not the one it is given next. */
  lemma WroteIsDone(w: Writer)
    requires Inv(w) && Apart(w) && w.active.Some?
    ensures var w' := Wrote(w, true);
            w.active.value.id in Ids(w'.wire) && !(w'.active.Some? && w'.active.value.id == w.active.value.id)
  {
    var w1 := w.(active := None, settled := Settle(w.settled, {w.active.value.id}, Sent));
    SettledInv(w);
    TurnGrows(w1);
    assert w.active.value in Wrote(w, true).wire;
  }

  lemma StepTruthful(w: Writer, op: Op)
    requires Inv(w) && Apart(w) && Truthful(w) && Enabled(w, op)
    ensures Truthful(Apply(w, op))
  {
    var w' := Apply(w, op);
    StepGrows(w, op);
    StepKeeps(w, op);
    forall id | id in w'.settled ensures Says(w', id, w'.settled[id]) {
      if id in w.settled {
        OldSays(w, w', id, w.settled[id]);
      } else {
        NewSays(w, op, id);
      }
    }
  }

  /**
   * In every run, a promise resolved as sent belongs to a frame that the socket
   * has written; a withdrawn one to a data frame that never got to the wire; and
   * any other to a writer that is closed.
   */
  lemma {:induction false} SettlementsAreTrue(states: seq<Writer>, ops: seq<Op>, n: nat)
    requires IsRun(states, ops) && states[0] == IDLE && n <= |ops|
    ensures Truthful(states[n])
  {
    if n > 0 {
      SettlementsAreTrue(states, ops, n - 1);
      RunApart(states, ops, n - 1);
      NextTruthful(states, ops, n - 1);
    }
  }

  lemma NextTruthful(states: seq<Writer>, ops: seq<Op>, n: nat)
    requires IsRun(states, ops) && n < |ops| && Inv(states[n]) && Apart(states[n]) && Truthful(states[n])
    ensures Truthful(states[n + 1])
  {
    StepTruthful(states[n], ops[n]);
  }
}
