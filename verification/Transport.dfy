/**
 * The frame writer: one per connection, shared by all its calls. Control frames
 * go first; the other frames wait in one queue per call, served in turn.
 *
 * `Writer` is the writer's state as a value, with one function per step; the
 * class `FrameWriter` takes the same steps in place. `accepted` lists the frames
 * accepted so far, `wire` those handed to the socket, and `settled` how the
 * promise of each accepted frame was settled: settling it again has no effect.
 */
module Transport {

  import opened Wrappers
  import opened Protocol

  /** An accepted frame, numbered by acceptance. */
  datatype Pending = Pending(id: nat, frame: Frame)

  datatype Settlement = Sent | Withdrawn | ConnectionClosed

  datatype SendResult = Accepted(id: nat) | Cancelled | TooLarge | NotConnected

  datatype Writer = Writer(
    controls: seq<Pending>,
    calls: map<CallId, seq<Pending>>,
    order: seq<CallId>,
    active: Option<Pending>,
    draining: bool,
    closed: bool,
    accepted: seq<Frame>,
    wire: seq<Pending>,
    settled: map<nat, Settlement>)

  const IDLE := Writer([], map[], [], None, false, false, [], [], map[])

  function Ids(frames: seq<Pending>): set<nat> { set p <- frames :: p.id }

  function QueuedIds(calls: map<CallId, seq<Pending>>): set<nat> {
    set c, p | c in calls && p in calls[c] :: p.id
  }

  /** Settle the promises in `ids` that are not settled yet. */
  function Settle(settled: map<nat, Settlement>, ids: set<nat>, how: Settlement): (r: map<nat, Settlement>)
    ensures r.Keys == settled.Keys + ids
    ensures forall id :: id in r ==> r[id] == if id in settled then settled[id] else how
  {
    (map id | id in ids :: how) + settled
  }

  function Without(order: seq<CallId>, callId: CallId): (r: seq<CallId>)
    ensures |r| <= |order|
    ensures callId !in order ==> r == order
  {
    if order == [] then []
    else if order[0] == callId then order[1..]
    else [order[0]] + Without(order[1..], callId)
  }

  predicate HasOpen(queue: seq<Pending>) {
    exists i :: 0 <= i < |queue| && queue[i].frame.Call? && queue[i].frame.body.Open?
  }

  /** Forget the queued frames of a call, rejecting their promises. */
  function DropCall(w: Writer, callId: CallId): Writer {
    if callId !in w.calls then w
    else w.(calls := w.calls - {callId},
            order := Without(w.order, callId),
            settled := Settle(w.settled, Ids(w.calls[callId]), Withdrawn))
  }

  function Enqueue(w: Writer, frame: Frame): Writer {
    var p := Pending(|w.accepted|, frame);
    var w := w.(accepted := w.accepted + [frame], draining := true);
    if IsControl(frame) then w.(controls := w.controls + [p])
    else
      var c := frame.callId;
      if c in w.calls then w.(calls := w.calls[c := w.calls[c] + [p]])
      else w.(calls := w.calls[c := [p]], order := w.order + [c])
  }

  predicate IsCancel(frame: Frame) { frame.Call? && frame.body.Cancel? }

  /** `up`: the socket is open; `large`: the encoded frame is over the size limit. */
  function AfterSend(w: Writer, frame: Frame, up: bool, large: bool): (Writer, SendResult) {
    if w.closed || !up then (w, NotConnected)
    else
      var unopened := IsCancel(frame) && frame.callId in w.calls && HasOpen(w.calls[frame.callId]);
      var w := if IsCancel(frame) then DropCall(w, frame.callId) else w;
      if unopened then (w, Cancelled)
      else if large then (w, TooLarge)
      else (Enqueue(w, frame), Accepted(|w.accepted|))
  }

  /** The frames whose promise may still be waiting. */
  function WaitingIds(w: Writer): set<nat> {
    (if w.active.Some? then {w.active.value.id} else {}) + Ids(w.controls) + QueuedIds(w.calls)
  }

  function AfterClose(w: Writer): Writer {
    if w.closed then w
    else
      w.(closed := true, controls := [], calls := map[], order := [],
         settled := Settle(w.settled, WaitingIds(w), ConnectionClosed))
  }

  /** Take the next frame: the oldest control frame, or else the next call's oldest. */
  function Dequeue(w: Writer): (Option<Pending>, Writer)
    requires Consistent(w)
  {
    if w.controls != [] then (Some(w.controls[0]), w.(controls := w.controls[1..]))
    else if w.order == [] then (None, w)
    else
      var c := w.order[0];
      var queue := w.calls[c];
      (Some(queue[0]),
       if |queue| == 1 then w.(calls := w.calls - {c}, order := w.order[1..])
       else w.(calls := w.calls[c := queue[1..]], order := w.order[1..] + [c]))
  }

  /** One turn of the draining loop: hand the next frame to the socket, or stop. */
  function Turn(w: Writer): Writer
    requires Consistent(w) && w.active == None
  {
    if w.closed then w.(draining := false)
    else
      var (p, w') := Dequeue(w);
      if p == None then w'.(draining := false)
      else w'.(active := p, wire := w'.wire + [p.value])
  }

  /** The socket reports on the frame it was given. */
  function Wrote(w: Writer, ok: bool): Writer
    requires Consistent(w) && w.active.Some?
  {
    if ok then
      Turn(w.(active := None, settled := Settle(w.settled, {w.active.value.id}, Sent)))
    else
      AfterClose(w).(active := None, draining := false)
  }

  // --- The representation invariant -------------------------------------------

  /** The index is exact, nothing queued is forgotten, and nothing is queued once closed. */
  ghost predicate Consistent(w: Writer) {
    && NoDuplicates(w.order)
    && (forall c :: c in w.order <==> c in w.calls)
    && (forall c :: c in w.calls ==> w.calls[c] != [])
    && (forall c, p :: c in w.calls && p in w.calls[c] ==>
          !IsControl(p.frame) && p.frame.callId == c)
    && (forall p <- w.controls :: IsControl(p.frame))
    && (w.closed ==> w.controls == [] && w.order == [])
    && (!w.closed && (w.controls != [] || w.order != []) ==> w.draining)
    && (w.active.Some? ==> w.draining)
  }

  lemma {:induction false} WithoutKeepsOrder(order: seq<CallId>, callId: CallId)
    requires NoDuplicates(order)
    ensures NoDuplicates(Without(order, callId))
    ensures forall c :: c in Without(order, callId) <==> c in order && c != callId
  {
    if order != [] {
      WithoutKeepsOrder(order[1..], callId);
      var rest := Without(order[1..], callId);
      assert order == [order[0]] + order[1..];
      if order[0] != callId {
        assert order[0] !in order[1..];
        assert forall c :: c in [order[0]] + rest <==> c == order[0] || c in rest;
      } else {
        assert callId !in order[1..];
      }
    }
  }

  lemma DropCallOk(w: Writer, callId: CallId)
    requires Consistent(w)
    ensures Consistent(DropCall(w, callId))
  {
    WithoutKeepsOrder(w.order, callId);
  }

  lemma EnqueueOk(w: Writer, frame: Frame)
    requires Consistent(w) && !w.closed
    ensures Consistent(Enqueue(w, frame))
  {
    var w' := Enqueue(w, frame);
    forall c | true
      ensures c in w'.order <==> c in w'.calls
    {
    }
  }

  lemma SendOk(w: Writer, frame: Frame, up: bool, large: bool)
    requires Consistent(w)
    ensures Consistent(AfterSend(w, frame, up, large).0)
  {
    if !w.closed && up {
      var w1 := if IsCancel(frame) then DropCall(w, frame.callId) else w;
      if IsCancel(frame) { DropCallOk(w, frame.callId); }
      EnqueueOk(w1, frame);
    }
  }

  lemma DequeueOk(w: Writer)
    requires Consistent(w) && !w.closed
    ensures var (p, w') := Dequeue(w);
            && (p == None <==> w.controls == [] && w.order == [])
            && Consistent(w'.(draining := true))
  {
    if w.controls == [] && w.order != [] {
      var c, rest := w.order[0], w.order[1..];
      assert w.order == [c] + rest;
      assert c !in rest;
      var (p, w') := Dequeue(w);
      forall d
        ensures d in w'.order <==> d in w'.calls
      {
        assert d in w.order <==> d == c || d in rest;
      }
    }
  }

  lemma TurnOk(w: Writer)
    requires Consistent(w) && w.active == None
    ensures Consistent(Turn(w))
  {
    if !w.closed {
      DequeueOk(w);
    }
  }

  lemma WroteOk(w: Writer, ok: bool)
    requires Consistent(w) && w.active.Some?
    ensures Consistent(Wrote(w, ok))
  {
    if ok {
      TurnOk(w.(active := None, settled := Settle(w.settled, {w.active.value.id}, Sent)));
    }
  }

  // --- Every history ----------------------------------------------------------

  datatype Op =
    | SendFrame(frame: Frame, up: bool, large: bool)
    | StartDrain
    | SocketWrote(ok: bool)
    | CloseWriter

  ghost predicate Enabled(w: Writer, op: Op) {
    match op
    case StartDrain => w.draining && w.active == None
    case SocketWrote(_) => w.active.Some?
    case _ => true
  }

  function Apply(w: Writer, op: Op): Writer
    requires Consistent(w) && Enabled(w, op)
  {
    match op
    case SendFrame(frame, up, large) => AfterSend(w, frame, up, large).0
    case StartDrain => Turn(w)
    case SocketWrote(ok) => Wrote(w, ok)
    case CloseWriter => AfterClose(w)
  }

  /** `states` are the states passed through when `ops` happen one after the other. */
  ghost predicate IsRun(states: seq<Writer>, ops: seq<Op>) {
    && |states| == |ops| + 1
    && forall i :: 0 <= i < |ops| ==>
         Consistent(states[i]) && Enabled(states[i], ops[i]) && states[i + 1] == Apply(states[i], ops[i])
  }
}
