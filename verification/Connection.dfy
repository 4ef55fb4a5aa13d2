/**
 * A whole connection: any number of calls, one frame writer at each end shared
 * by all of them, and two wires. Seen from any one of its calls, it is the
 * stream protocol; so what is proved of one call holds of each call of a
 * connection, whatever the others do.
 */
module Connection {

  import opened Wrappers
  import opened Protocol
  import S = Stream
  import opened Transport
  import opened TransportOrder
  import opened TransportLane
  import StreamSteps

  /**
   * The two halves of a call. `up` and `down` matter once the connection is
   * lost: what its writers held then, with what was submitted in vain since.
   */
  datatype OneCall = OneCall(
    kind: S.Kind,
    client: S.Client,
    server: S.Server,
    serverGot: nat,
    clientGot: nat,
    up: S.Lane,
    down: S.Lane)

  datatype Connection = Connection(
    calls: map<CallId, OneCall>,
    up: Writer,
    down: Writer,
    toServer: seq<Pending>,
    toClient: seq<Pending>,
    cut: bool)

  ghost function UpLane(n: Connection, c: CallId): S.Lane
    requires c in n.calls
  {
    if n.cut then n.calls[c].up else Project(n.up, c)
  }

  ghost function DownLane(n: Connection, c: CallId): S.Lane
    requires c in n.calls
  {
    if n.cut then n.calls[c].down else Project(n.down, c)
  }

  /** What one call sees of the connection. */
  ghost function View(n: Connection, c: CallId): S.System
    requires c in n.calls
  {
    var call := n.calls[c];
    S.System(call.client, UpLane(n, c), Bodies(n.toServer, c), call.server, DownLane(n, c), Bodies(n.toClient, c),
             call.serverGot, call.clientGot, n.cut)
  }

  predicate NewCall(call: OneCall) {
    && S.FreshClient(call.client) && S.FreshServer(call.server) && !call.server.accepted
    && call.server.end.fate == S.Running && call.server.end.final == None && !call.server.end.removed
    && call.serverGot == call.clientGot == 0
  }

  predicate NewConnection(n: Connection) {
    n.calls == map[] && n.up == n.down == IDLE && n.toServer == n.toClient == [] && !n.cut
  }

  datatype Event =
    | Begin(callId: CallId, call: OneCall)
    | ClientActs(callId: CallId, step: S.Label)
    | ServerActs(callId: CallId, step: S.Label)
    | ServerHears(valid: bool, decision: S.Decision)
    | ClientHears(valid: bool)
    | WriterUp(op: Op)
    | WriterDown(op: Op)
    | SessionUp(nonce: string)
    | SessionDown(nonce: string)
    | Lose(keepUp: nat, keepDown: nat)

  /** A writer's own steps on a connection that is up: to start its loop, and to go on after a write. */
  ghost predicate Writes(w: Writer, op: Op) {
    (op == StartDrain || op == SocketWrote(true)) && Transport.Enabled(w, op)
  }

  ghost predicate Enabled(n: Connection, e: Event) {
    match e
    case Begin(c, call) => !n.cut && c !in n.calls && NewCall(call)
    case ClientActs(c, l) => c in n.calls && StreamSteps.ClientAlone(l) && S.Enabled(n.calls[c].kind, View(n, c), l)
    case ServerActs(c, l) => c in n.calls && StreamSteps.ServerAlone(l) && S.Enabled(n.calls[c].kind, View(n, c), l)
    case ServerHears(_, _) => n.toServer != []
    case ClientHears(_) => n.toClient != []
    case WriterUp(op) => !n.cut && Writes(n.up, op)
    case WriterDown(op) => !n.cut && Writes(n.down, op)
    case SessionUp(_) => !n.cut
    case SessionDown(_) => !n.cut
    case Lose(i, j) => !n.cut && i <= |n.toServer| && j <= |n.toClient|
  }

  /** Hand a frame of the call to an open writer. */
  function Sent(w: Writer, c: CallId, body: Option<Body>): Writer {
    if body.Some? then AfterSend(w, Call(c, body.value), true, false).0 else w
  }

  function SessionSent(w: Writer, nonce: string): Writer { AfterSend(w, Session(nonce), true, false).0 }

  ghost function ByClient(n: Connection, c: CallId, t: S.ClientTurn): Connection
    requires c in n.calls
  {
    var call := n.calls[c].(client := t.client);
    if n.cut then n.(calls := n.calls[c := call.(up := S.Emit(call.up, t.frame))])
    else n.(calls := n.calls[c := call], up := Sent(n.up, c, t.frame))
  }

  ghost function ByServer(n: Connection, c: CallId, t: S.ServerTurn): Connection
    requires c in n.calls
  {
    var call := n.calls[c].(server := t.server);
    if n.cut then n.(calls := n.calls[c := call.(down := S.Emit(call.down, t.frame))])
    else n.(calls := n.calls[c := call], down := Sent(n.down, c, t.frame))
  }

  predicate Known(n: Connection, frame: Frame) { frame.Call? && frame.callId in n.calls }

  function Got(got: nat, body: Body): nat { if IsControlBody(body) then got else got + 1 }

  ghost function ServerGets(n: Connection, valid: bool, decision: S.Decision): Connection
    requires n.toServer != []
  {
    var frame, rest := n.toServer[0].frame, n.(toServer := n.toServer[1..]);
    if !Known(n, frame) then rest
    else
      var c, call := frame.callId, n.calls[frame.callId];
      ByServer(rest.(calls := n.calls[c := call.(serverGot := Got(call.serverGot, frame.body))]), c,
               S.ServerReceive(call.kind, call.server, frame.body, valid, decision))
  }

  ghost function ClientGets(n: Connection, valid: bool): Connection
    requires n.toClient != []
  {
    var frame, rest := n.toClient[0].frame, n.(toClient := n.toClient[1..]);
    if !Known(n, frame) then rest
    else
      var call := n.calls[frame.callId];
      rest.(calls := n.calls[frame.callId := call.(
        client := S.ClientReceive(call.kind, call.client, frame.body, valid),
        clientGot := Got(call.clientGot, frame.body))])
  }

  ghost function Lost(n: Connection, keepUp: nat, keepDown: nat): Connection
    requires keepUp <= |n.toServer| && keepDown <= |n.toClient|
  {
    Connection(map c | c in n.calls :: n.calls[c].(up := UpLane(n, c), down := DownLane(n, c)),
               AfterClose(n.up), AfterClose(n.down), n.toServer[..keepUp], n.toClient[..keepDown], true)
  }

  /** What a step of the writer puts on the wire. */
  function Written(w: Writer, w': Writer): seq<Pending>
    requires |w.wire| <= |w'.wire|
  {
    w'.wire[|w.wire|..]
  }

  lemma WritesOn(w: Writer, op: Op)
    requires Consistent(w) && Writes(w, op)
    ensures w.wire <= Apply(w, op).wire
  {
  }

  ghost function After(n: Connection, e: Event): Connection
    requires Good(n) && Enabled(n, e)
  {
    match e
    case Begin(c, call) => n.(calls := n.calls[c := call], up := Sent(n.up, c, Some(Open)))
    case ClientActs(c, l) => ByClient(n, c, StreamSteps.ClientTurnOf(n.calls[c].kind, View(n, c), l))
    case ServerActs(c, l) => ByServer(n, c, StreamSteps.TurnOf(n.calls[c].kind, View(n, c), l))
    case ServerHears(valid, decision) => ServerGets(n, valid, decision)
    case ClientHears(valid) => ClientGets(n, valid)
    case WriterUp(op) =>
      WritesOn(n.up, op);
      var w := Apply(n.up, op);
      n.(up := w, toServer := n.toServer + Written(n.up, w))
    case WriterDown(op) =>
      WritesOn(n.down, op);
      var w := Apply(n.down, op);
      n.(down := w, toClient := n.toClient + Written(n.down, w))
    case SessionUp(nonce) => n.(up := SessionSent(n.up, nonce))
    case SessionDown(nonce) => n.(down := SessionSent(n.down, nonce))
    case Lose(i, j) => Lost(n, i, j)
  }

  // --- What holds throughout ----------------------------------------------------------------

  ghost predicate Quiet(w: Writer, wire: seq<Pending>, c: CallId) {
    S.FreshLane(Project(w, c), []) && Bodies(wire, c) == []
  }

  ghost predicate Working(w: Writer) { Consistent(w) && !w.closed }

  /** Both writers work, and nothing is under way for a call that was not begun. */
  ghost predicate Good(n: Connection) {
    !n.cut ==>
      && Working(n.up) && Working(n.down)
      && forall c :: c !in n.calls ==> Quiet(n.up, n.toServer, c) && Quiet(n.down, n.toClient, c)
  }

  lemma SentWorks(w: Writer, frame: Frame)
    requires Working(w)
    ensures Working(AfterSend(w, frame, true, false).0)
  {
    SendOk(w, frame, true, false);
  }

  lemma SentToCall(w: Writer, c: CallId, body: Option<Body>, d: CallId)
    requires Working(w)
    ensures Working(Sent(w, c, body))
    ensures Project(Sent(w, c, body), d) == if d == c then S.Emit(Project(w, c), body) else Project(w, d)
  {
    if body.Some? {
      SentWorks(w, Call(c, body.value));
      if d == c { SendIsSubmit(w, c, body.value); } else { SendElsewhere(w, Call(c, body.value), true, false, d); }
    }
  }

  /** A writer's step moves the next frame of a call to the wire, or does nothing to the call. */
  ghost predicate Moves(w: Writer, wire: seq<Pending>, w': Writer, wire': seq<Pending>, c: CallId) {
    var l := Project(w, c);
    || (Project(w', c) == l && Bodies(wire', c) == Bodies(wire, c))
    || (S.CanTransmit(l) && Project(w', c) == S.Transmitted(l) && Bodies(wire', c) == Bodies(wire, c) + [S.NextBody(l)])
  }

  lemma SameSuffix(a: seq<Body>, b: seq<Body>, c: seq<Body>)
    requires a + b == a + c
    ensures b == c
  {
    assert (a + b)[|a|..] == b && (a + c)[|a|..] == c;
  }

  lemma LaneMoves(w: Writer, wire: seq<Pending>, w': Writer, c: CallId)
    requires w.wire <= w'.wire && (Stutters(w, w', c) || Transmits(w, w', c))
    ensures Moves(w, wire, w', wire + Written(w, w'), c)
  {
    assert w'.wire == w.wire + Written(w, w');
    BodiesConcat(w.wire, Written(w, w'), c);
    BodiesConcat(wire, Written(w, w'), c);
    if Stutters(w, w', c) {
      SameSuffix(Bodies(w.wire, c), Bodies(Written(w, w'), c), []);
    } else {
      SameSuffix(Bodies(w.wire, c), Bodies(Written(w, w'), c), [S.NextBody(Project(w, c))]);
    }
  }

  lemma WriterMoves(w: Writer, wire: seq<Pending>, op: Op, c: CallId)
    requires Working(w) && Writes(w, op)
    ensures w.wire <= Apply(w, op).wire && Moves(w, wire, Apply(w, op), wire + Written(w, Apply(w, op)), c)
  {
    WritesOn(w, op);
    WriterWorks(w, op);
    WriterIsLane(w, op, c);
    LaneMoves(w, wire, Apply(w, op), c);
  }

  lemma WriterWorks(w: Writer, op: Op)
    requires Working(w) && Writes(w, op)
    ensures Working(Apply(w, op))
  {
    match op
    case StartDrain => TurnOk(w);
    case SocketWrote(ok) => WroteOk(w, ok);
  }

  // --- Each step, seen from one call ------------------------------------------------------------

  /** The call does the step `l`, or nothing. */
  ghost predicate Does(k: S.Kind, s: S.System, s': S.System, l: Option<S.Label>) {
    match l
    case None => s' == s
    case Some(l) => S.Enabled(k, s, l) && s' == S.Step(k, s, l)
  }

  lemma DoesSReceive(k: S.Kind, s: S.System, valid: bool, decision: S.Decision)
    requires s.toServer != []
    ensures Does(k, s, S.ServerGets(s, S.ServerReceive(k, s.server, s.toServer[0], valid, decision)),
                 Some(S.SReceive(valid, decision)))
  {
  }

  lemma DoesCReceive(k: S.Kind, s: S.System, valid: bool)
    requires s.toClient != []
    ensures Does(k, s, S.ClientGets(s, S.ClientReceive(k, s.client, s.toClient[0], valid)), Some(S.CReceive(valid)))
  {
  }

  lemma DoesTransmit(k: S.Kind, s: S.System)
    requires !s.cut
    ensures S.CanTransmit(s.up) ==>
              Does(k, s, s.(toServer := s.toServer + [S.NextBody(s.up)], up := S.Transmitted(s.up)), Some(S.TransmitUp))
    ensures S.CanTransmit(s.down) ==>
              Does(k, s, s.(toClient := s.toClient + [S.NextBody(s.down)], down := S.Transmitted(s.down)), Some(S.TransmitDown))
  {
  }

  lemma DoesCut(k: S.Kind, s: S.System, i: nat, j: nat)
    requires !s.cut && i <= |s.toServer| && j <= |s.toClient|
    ensures Does(k, s, s.(toServer := s.toServer[..i], toClient := s.toClient[..j], cut := true), Some(S.Cut(i, j)))
  {
  }

  /** The calls begun are those of before, of the same kinds. */
  ghost predicate SameCalls(n: Connection, n': Connection) {
    n'.calls.Keys == n.calls.Keys && n'.cut == n.cut && forall c :: c in n.calls ==> n'.calls[c].kind == n.calls[c].kind
  }

  lemma ByClientView(n: Connection, c: CallId, t: S.ClientTurn, d: CallId)
    requires (!n.cut ==> Working(n.up)) && c in n.calls && d in n.calls
    ensures SameCalls(n, ByClient(n, c, t))
    ensures View(ByClient(n, c, t), d) == if d == c then S.ByClient(View(n, c), t) else View(n, d)
  {
    if !n.cut { SentToCall(n.up, c, t.frame, d); }
  }

  lemma ByServerView(n: Connection, c: CallId, t: S.ServerTurn, d: CallId)
    requires (!n.cut ==> Working(n.down)) && c in n.calls && d in n.calls
    ensures SameCalls(n, ByServer(n, c, t))
    ensures View(ByServer(n, c, t), d) == if d == c then S.ByServer(View(n, c), t) else View(n, d)
  {
    if !n.cut { SentToCall(n.down, c, t.frame, d); }
  }

  lemma ByClientGood(n: Connection, c: CallId, t: S.ClientTurn)
    requires Good(n) && c in n.calls
    ensures Good(ByClient(n, c, t))
  {
    if !n.cut {
      SentToCall(n.up, c, t.frame, c);
      forall d | d !in n.calls ensures Quiet(ByClient(n, c, t).up, n.toServer, d) {
        assert Quiet(n.up, n.toServer, d);
        SentToCall(n.up, c, t.frame, d);
      }
    }
  }

  lemma ByServerGood(n: Connection, c: CallId, t: S.ServerTurn)
    requires Good(n) && c in n.calls
    ensures Good(ByServer(n, c, t))
  {
    if !n.cut {
      SentToCall(n.down, c, t.frame, c);
      forall d | d !in n.calls ensures Quiet(ByServer(n, c, t).down, n.toClient, d) {
        assert Quiet(n.down, n.toClient, d);
        SentToCall(n.down, c, t.frame, d);
      }
    }
  }

  lemma FirstBody(wire: seq<Pending>, c: CallId)
    requires wire != []
    ensures OfCall(wire[0], c) ==>
              Bodies(wire, c) != [] && Bodies(wire, c)[0] == wire[0].frame.body && Bodies(wire[1..], c) == Bodies(wire, c)[1..]
    ensures !OfCall(wire[0], c) ==> Bodies(wire[1..], c) == Bodies(wire, c)
  {
  }

  /** The state of the connection when the head of a wire has been taken off. */
  ghost function ServerTakes(n: Connection): Connection
    requires n.toServer != [] && Known(n, n.toServer[0].frame)
  {
    var c := n.toServer[0].frame.callId;
    var call := n.calls[c];
    n.(toServer := n.toServer[1..],
       calls := n.calls[c := call.(serverGot := Got(call.serverGot, n.toServer[0].frame.body))])
  }

  lemma ServerTakesView(n: Connection, d: CallId)
    requires n.toServer != [] && Known(n, n.toServer[0].frame) && d in n.calls
    ensures var s := View(n, d);
            View(ServerTakes(n), d) ==
            if d == n.toServer[0].frame.callId then
              s.(toServer := Bodies(n.toServer[1..], d), serverGot := Got(s.serverGot, n.toServer[0].frame.body))
            else s
  {
    FirstBody(n.toServer, d);
  }

  lemma ServerGetsCall(n: Connection, valid: bool, decision: S.Decision)
    requires Good(n) && n.toServer != [] && Known(n, n.toServer[0].frame)
    ensures var c := n.toServer[0].frame.callId;
            var s := View(n, c);
            && s.toServer != []
            && View(ServerGets(n, valid, decision), c)
               == S.ServerGets(s, S.ServerReceive(n.calls[c].kind, s.server, s.toServer[0], valid, decision))
  {
    var frame := n.toServer[0].frame;
    var c, call := frame.callId, n.calls[frame.callId];
    FirstBody(n.toServer, c);
    ServerTakesView(n, c);
    ByServerView(ServerTakes(n), c, S.ServerReceive(call.kind, call.server, frame.body, valid, decision), c);
  }

  lemma ServerGetsElsewhere(n: Connection, valid: bool, decision: S.Decision, d: CallId)
    requires Good(n) && n.toServer != [] && d in n.calls && !OfCall(n.toServer[0], d)
    ensures View(ServerGets(n, valid, decision), d) == View(n, d)
  {
    var frame := n.toServer[0].frame;
    FirstBody(n.toServer, d);
    if Known(n, frame) {
      var c, call := frame.callId, n.calls[frame.callId];
      ServerTakesView(n, d);
      ByServerView(ServerTakes(n), c, S.ServerReceive(call.kind, call.server, frame.body, valid, decision), d);
    }
  }

  lemma ServerGetsSame(n: Connection, valid: bool, decision: S.Decision)
    requires n.toServer != []
    ensures SameCalls(n, ServerGets(n, valid, decision))
  {
  }

  lemma ServerGetsView(n: Connection, valid: bool, decision: S.Decision, d: CallId) returns (l: Option<S.Label>)
    requires Good(n) && n.toServer != [] && d in n.calls
    ensures Does(n.calls[d].kind, View(n, d), View(ServerGets(n, valid, decision), d), l)
    ensures l.Some? ==> l.value.SReceive?
  {
    if OfCall(n.toServer[0], d) {
      ServerGetsCall(n, valid, decision);
      DoesSReceive(n.calls[d].kind, View(n, d), valid, decision);
      l := Some(S.SReceive(valid, decision));
    } else {
      ServerGetsElsewhere(n, valid, decision, d);
      l := None;
    }
  }

  lemma ServerGetsGood(n: Connection, valid: bool, decision: S.Decision)
    requires Good(n) && n.toServer != []
    ensures Good(ServerGets(n, valid, decision))
  {
    var frame := n.toServer[0].frame;
    forall d | d !in n.calls ensures Bodies(n.toServer, d) == [] ==> Bodies(n.toServer[1..], d) == [] {
      FirstBody(n.toServer, d);
    }
    if Known(n, frame) {
      var c, call := frame.callId, n.calls[frame.callId];
      ByServerGood(ServerTakes(n), c, S.ServerReceive(call.kind, call.server, frame.body, valid, decision));
    }
  }

  lemma ClientGetsCall(n: Connection, valid: bool, d: CallId)
    requires n.toClient != [] && d in n.calls
    ensures var s := View(n, d);
            if OfCall(n.toClient[0], d) then
              s.toClient != []
              && View(ClientGets(n, valid), d)
                 == S.ClientGets(s, S.ClientReceive(n.calls[d].kind, s.client, s.toClient[0], valid))
            else View(ClientGets(n, valid), d) == s
  {
    FirstBody(n.toClient, d);
  }

  lemma ClientGetsView(n: Connection, valid: bool, d: CallId) returns (l: Option<S.Label>)
    requires n.toClient != [] && d in n.calls
    ensures Does(n.calls[d].kind, View(n, d), View(ClientGets(n, valid), d), l)
    ensures l.Some? ==> l.value.CReceive?
  {
    ClientGetsCall(n, valid, d);
    if OfCall(n.toClient[0], d) {
      DoesCReceive(n.calls[d].kind, View(n, d), valid);
      l := Some(S.CReceive(valid));
    } else {
      l := None;
    }
  }

  lemma ClientGetsGood(n: Connection, valid: bool)
    requires Good(n) && n.toClient != []
    ensures Good(ClientGets(n, valid))
  {
    forall d | d !in n.calls ensures Bodies(n.toClient, d) == [] ==> Bodies(n.toClient[1..], d) == [] {
      FirstBody(n.toClient, d);
    }
  }

  lemma UpView(n: Connection, w: Writer, wire: seq<Pending>, d: CallId) returns (l: Option<S.Label>)
    requires d in n.calls && !n.cut && Moves(n.up, n.toServer, w, wire, d)
    ensures Does(n.calls[d].kind, View(n, d), View(n.(up := w, toServer := wire), d), l)
    ensures l.Some? ==> l.value.TransmitUp?
  {
    DoesTransmit(n.calls[d].kind, View(n, d));
    var still := Project(w, d) == Project(n.up, d) && Bodies(wire, d) == Bodies(n.toServer, d);
    l := if still then None else Some(S.TransmitUp);
  }

  lemma DownView(n: Connection, w: Writer, wire: seq<Pending>, d: CallId) returns (l: Option<S.Label>)
    requires d in n.calls && !n.cut && Moves(n.down, n.toClient, w, wire, d)
    ensures Does(n.calls[d].kind, View(n, d), View(n.(down := w, toClient := wire), d), l)
    ensures l.Some? ==> l.value.TransmitDown?
  {
    DoesTransmit(n.calls[d].kind, View(n, d));
    var still := Project(w, d) == Project(n.down, d) && Bodies(wire, d) == Bodies(n.toClient, d);
    l := if still then None else Some(S.TransmitDown);
  }

  lemma WriterGood(w: Writer, wire: seq<Pending>, op: Op, c: CallId)
    requires Working(w) && Writes(w, op) && Quiet(w, wire, c)
    ensures w.wire <= Apply(w, op).wire && Quiet(Apply(w, op), wire + Written(w, Apply(w, op)), c)
  {
    WriterMoves(w, wire, op, c);
  }

  lemma UpGood(n: Connection, op: Op)
    requires Good(n) && Enabled(n, WriterUp(op))
    ensures Good(After(n, WriterUp(op)))
  {
    WriterWorks(n.up, op);
    var n' := After(n, WriterUp(op));
    forall d | d !in n.calls ensures Quiet(n'.up, n'.toServer, d) {
      assert Quiet(n.up, n.toServer, d);
      WriterGood(n.up, n.toServer, op, d);
    }
  }

  lemma DownGood(n: Connection, op: Op)
    requires Good(n) && Enabled(n, WriterDown(op))
    ensures Good(After(n, WriterDown(op)))
  {
    WriterWorks(n.down, op);
    var n' := After(n, WriterDown(op));
    forall d | d !in n.calls ensures Quiet(n'.down, n'.toClient, d) {
      assert Quiet(n.down, n.toClient, d);
      WriterGood(n.down, n.toClient, op, d);
    }
  }

  lemma {:induction false} BodiesPrefix(wire: seq<Pending>, k: nat, c: CallId)
    requires k <= |wire|
    ensures |Bodies(wire[..k], c)| <= |Bodies(wire, c)|
    ensures Bodies(wire[..k], c) == Bodies(wire, c)[..|Bodies(wire[..k], c)|]
  {
    assert wire == wire[..k] + wire[k..];
    BodiesConcat(wire[..k], wire[k..], c);
  }

  lemma LostView(n: Connection, i: nat, j: nat, d: CallId) returns (l: Option<S.Label>)
    requires Enabled(n, Lose(i, j)) && d in n.calls
    ensures Does(n.calls[d].kind, View(n, d), View(Lost(n, i, j), d), l)
    ensures l.Some? ==> l.value.Cut?
  {
    BodiesPrefix(n.toServer, i, d);
    BodiesPrefix(n.toClient, j, d);
    DoesCut(n.calls[d].kind, View(n, d), |Bodies(n.toServer[..i], d)|, |Bodies(n.toClient[..j], d)|);
    l := Some(S.Cut(|Bodies(n.toServer[..i], d)|, |Bodies(n.toClient[..j], d)|));
  }

  lemma SameView(n: Connection, up: Writer, down: Writer, d: CallId)
    requires d in n.calls && Project(up, d) == Project(n.up, d) && Project(down, d) == Project(n.down, d)
    ensures View(n.(up := up, down := down), d) == View(n, d)
  {
  }

  lemma SessionUpView(n: Connection, nonce: string, d: CallId)
    requires Good(n) && !n.cut && d in n.calls
    ensures View(n.(up := SessionSent(n.up, nonce)), d) == View(n, d)
  {
    SessionWorks(n.up, nonce, d);
    SameView(n, SessionSent(n.up, nonce), n.down, d);
  }

  lemma SessionDownView(n: Connection, nonce: string, d: CallId)
    requires Good(n) && !n.cut && d in n.calls
    ensures View(n.(down := SessionSent(n.down, nonce)), d) == View(n, d)
  {
    SessionWorks(n.down, nonce, d);
    SameView(n, n.up, SessionSent(n.down, nonce), d);
  }

  lemma SessionWorks(w: Writer, nonce: string, d: CallId)
    requires Working(w)
    ensures Working(SessionSent(w, nonce)) && Project(SessionSent(w, nonce), d) == Project(w, d)
  {
    SentWorks(w, Session(nonce));
    SendElsewhere(w, Session(nonce), true, false, d);
  }

  lemma SessionUpGood(n: Connection, nonce: string)
    requires Good(n) && !n.cut
    ensures Good(n.(up := SessionSent(n.up, nonce)))
  {
    forall d ensures Working(SessionSent(n.up, nonce)) && Project(SessionSent(n.up, nonce), d) == Project(n.up, d) {
      SessionWorks(n.up, nonce, d);
    }
  }

  lemma SessionDownGood(n: Connection, nonce: string)
    requires Good(n) && !n.cut
    ensures Good(n.(down := SessionSent(n.down, nonce)))
  {
    forall d ensures Working(SessionSent(n.down, nonce)) && Project(SessionSent(n.down, nonce), d) == Project(n.down, d) {
      SessionWorks(n.down, nonce, d);
    }
  }

  lemma FreshStart(s: S.System, call: OneCall)
    requires NewCall(call) && s.client == call.client && s.server == call.server && s.serverGot == s.clientGot == 0
    requires S.FreshLane(s.up, [Open]) && S.FreshLane(s.down, []) && s.toServer == s.toClient == [] && !s.cut
    ensures S.IsStart(s)
  {
  }

  lemma OpenSubmitted(l: S.Lane)
    requires S.FreshLane(l, [])
    ensures S.FreshLane(S.Emit(l, Some(Open)), [Open])
  {
  }

  lemma BeginStarts(n: Connection, c: CallId, call: OneCall)
    requires Good(n) && Enabled(n, Begin(c, call))
    ensures S.IsStart(View(After(n, Begin(c, call)), c))
  {
    SentToCall(n.up, c, Some(Open), c);
    assert Quiet(n.up, n.toServer, c) && Quiet(n.down, n.toClient, c);
    OpenSubmitted(Project(n.up, c));
    FreshStart(View(After(n, Begin(c, call)), c), call);
  }

  lemma BeginView(n: Connection, c: CallId, call: OneCall, d: CallId)
    requires Good(n) && Enabled(n, Begin(c, call)) && d in n.calls
    ensures View(After(n, Begin(c, call)), d) == View(n, d)
  {
    SentToCall(n.up, c, Some(Open), d);
    SameView(n, Sent(n.up, c, Some(Open)), n.down, d);
  }

  lemma BeginGood(n: Connection, c: CallId, call: OneCall)
    requires Good(n) && Enabled(n, Begin(c, call))
    ensures Good(After(n, Begin(c, call)))
  {
    SentToCall(n.up, c, Some(Open), c);
    forall d | d !in n.calls && d != c ensures Quiet(After(n, Begin(c, call)).up, n.toServer, d) {
      assert Quiet(n.up, n.toServer, d);
      SentToCall(n.up, c, Some(Open), d);
    }
  }

  // --- The whole ----------------------------------------------------------------------------------

  /** Nothing that happens on a connection breaks what holds throughout. */
  lemma StepGood(n: Connection, e: Event)
    requires Good(n) && Enabled(n, e)
    ensures Good(After(n, e))
  {
    match e
    case Begin(c, call) => BeginGood(n, c, call);
    case ClientActs(c, l) => ByClientGood(n, c, StreamSteps.ClientTurnOf(n.calls[c].kind, View(n, c), l));
    case ServerActs(c, l) => ByServerGood(n, c, StreamSteps.TurnOf(n.calls[c].kind, View(n, c), l));
    case ServerHears(valid, decision) => ServerGetsGood(n, valid, decision);
    case ClientHears(valid) => ClientGetsGood(n, valid);
    case WriterUp(op) => UpGood(n, op);
    case WriterDown(op) => DownGood(n, op);
    case SessionUp(nonce) => SessionUpGood(n, nonce);
    case SessionDown(nonce) => SessionDownGood(n, nonce);
    case Lose(i, j) =>
  }

  lemma ClientActsView(n: Connection, c: CallId, step: S.Label, d: CallId) returns (l: Option<S.Label>)
    requires Good(n) && Enabled(n, ClientActs(c, step)) && d in n.calls
    ensures Does(n.calls[d].kind, View(n, d), View(After(n, ClientActs(c, step)), d), l)
    ensures l == if d == c then Some(step) else None
  {
    ByClientView(n, c, StreamSteps.ClientTurnOf(n.calls[c].kind, View(n, c), step), d);
    if d == c { StreamSteps.ClientTurnStep(n.calls[c].kind, View(n, c), step); }
    l := if d == c then Some(step) else None;
  }

  lemma ServerActsView(n: Connection, c: CallId, step: S.Label, d: CallId) returns (l: Option<S.Label>)
    requires Good(n) && Enabled(n, ServerActs(c, step)) && d in n.calls
    ensures Does(n.calls[d].kind, View(n, d), View(After(n, ServerActs(c, step)), d), l)
    ensures l == if d == c then Some(step) else None
  {
    ByServerView(n, c, StreamSteps.TurnOf(n.calls[c].kind, View(n, c), step), d);
    if d == c { StreamSteps.TurnOfStep(n.calls[c].kind, View(n, c), step); }
    l := if d == c then Some(step) else None;
  }

  lemma WriterUpView(n: Connection, op: Op, d: CallId) returns (l: Option<S.Label>)
    requires Good(n) && Enabled(n, WriterUp(op)) && d in n.calls
    ensures Does(n.calls[d].kind, View(n, d), View(After(n, WriterUp(op)), d), l)
    ensures l.Some? ==> l.value.TransmitUp?
  {
    WriterMoves(n.up, n.toServer, op, d);
    l := UpView(n, Apply(n.up, op), n.toServer + Written(n.up, Apply(n.up, op)), d);
  }

  lemma WriterDownView(n: Connection, op: Op, d: CallId) returns (l: Option<S.Label>)
    requires Good(n) && Enabled(n, WriterDown(op)) && d in n.calls
    ensures Does(n.calls[d].kind, View(n, d), View(After(n, WriterDown(op)), d), l)
    ensures l.Some? ==> l.value.TransmitDown?
  {
    WriterMoves(n.down, n.toClient, op, d);
    l := DownView(n, Apply(n.down, op), n.toClient + Written(n.down, Apply(n.down, op)), d);
  }

  /** What the halves do. */
  lemma HalfFits(n: Connection, e: Event, d: CallId) returns (l: Option<S.Label>)
    requires Good(n) && Enabled(n, e) && d in n.calls
    requires e.ClientActs? || e.ServerActs? || e.ServerHears? || e.ClientHears?
    ensures d in After(n, e).calls && Does(n.calls[d].kind, View(n, d), View(After(n, e), d), l)
    ensures l.Some? && l.value.CContinue? ==> e == ClientActs(d, l.value)
  {
    StepKeeps(n, e);
    match e
    case ClientActs(c, step) => l := ClientActsView(n, c, step, d);
    case ServerActs(c, step) => l := ServerActsView(n, c, step, d);
    case ServerHears(valid, decision) => l := ServerGetsView(n, valid, decision, d);
    case ClientHears(valid) => l := ClientGetsView(n, valid, d);
  }

  /** What the writers, the session and the network do. */
  lemma WireFits(n: Connection, e: Event, d: CallId) returns (l: Option<S.Label>)
    requires Good(n) && Enabled(n, e) && d in n.calls
    requires !(e.ClientActs? || e.ServerActs? || e.ServerHears? || e.ClientHears?)
    ensures d in After(n, e).calls && Does(n.calls[d].kind, View(n, d), View(After(n, e), d), l)
    ensures !(l.Some? && l.value.CContinue?)
  {
    match e
    case Begin(c, call) => BeginView(n, c, call, d); l := None;
    case WriterUp(op) => l := WriterUpView(n, op, d);
    case WriterDown(op) => l := WriterDownView(n, op, d);
    case SessionUp(nonce) => SessionUpView(n, nonce, d); l := None;
    case SessionDown(nonce) => SessionDownView(n, nonce, d); l := None;
    case Lose(i, j) => l := LostView(n, i, j, d);
  }

  /**
   * Whatever happens on a connection, each of its calls sees one step of the
   * stream protocol or nothing at all; and its client half goes on with a send
   * only when that is what happened.
   */
  lemma StepFits(n: Connection, e: Event, d: CallId) returns (l: Option<S.Label>)
    requires Good(n) && Enabled(n, e) && d in n.calls
    ensures d in After(n, e).calls && Does(n.calls[d].kind, View(n, d), View(After(n, e), d), l)
    ensures l.Some? && l.value.CContinue? ==> e == ClientActs(d, l.value)
  {
    StepKeeps(n, e);
    if e.ClientActs? || e.ServerActs? || e.ServerHears? || e.ClientHears? {
      l := HalfFits(n, e, d);
    } else {
      l := WireFits(n, e, d);
    }
  }

  lemma ByClientSame(n: Connection, c: CallId, t: S.ClientTurn)
    requires c in n.calls
    ensures SameCalls(n, ByClient(n, c, t))
  {
  }

  lemma ByServerSame(n: Connection, c: CallId, t: S.ServerTurn)
    requires c in n.calls
    ensures SameCalls(n, ByServer(n, c, t))
  {
  }

  lemma ClientGetsSame(n: Connection, valid: bool)
    requires n.toClient != []
    ensures SameCalls(n, ClientGets(n, valid))
  {
  }

  ghost predicate Keeps(n: Connection, n': Connection) {
    forall c :: c in n.calls ==> c in n'.calls && n'.calls[c].kind == n.calls[c].kind
  }

  /** A call stays, of its kind. */
  lemma StepKeeps(n: Connection, e: Event)
    requires Good(n) && Enabled(n, e)
    ensures Keeps(n, After(n, e))
    ensures !e.Begin? ==> After(n, e).calls.Keys == n.calls.Keys
  {
    match e
    case ClientActs(c, l) => ByClientSame(n, c, StreamSteps.ClientTurnOf(n.calls[c].kind, View(n, c), l));
    case ServerActs(c, l) => ByServerSame(n, c, StreamSteps.TurnOf(n.calls[c].kind, View(n, c), l));
    case ServerHears(valid, decision) => ServerGetsSame(n, valid, decision);
    case ClientHears(valid) => ClientGetsSame(n, valid);
    case _ =>
  }
}
