/**
 * The per-call stream protocol: one call between a client and a server, the two
 * frame writers it passes through, and the two wires.
 *
 * JavaScript runs one task at a time, so the code between two awaits is one
 * step. `Client` and `Server` hold the fields of the two stream states; each
 * function below is one such piece of code and returns the new state with the
 * frame, if any, it hands to its writer. Four fields are history only: `produced`
 * (values whose frame was accepted by the writer), a lane's `log` and `sent`,
 * and the system's two `got` counters.
 */
module Stream {

  import opened Wrappers
  import opened Protocol
  import opened Flow

  datatype Kind = Unary | ServerStream | ClientStream | Duplex {
    predicate HasInput() { ClientStream? || Duplex? }
    predicate HasOutput() { ServerStream? || Duplex? }
  }

  /**
   * How a half of the call ended. `Protocol` is a ProtocolError raised here
   * against the peer; `Invalid` a payload that fails validation; `Remote` the
   * peer's error frame; `Local` everything else: cancelled, deadline, failed
   * handler, lost connection.
   */
  datatype Fate = Running | Completed | Protocol | Invalid | Remote | Local

  /**
   * The receiving end of one direction: what may still arrive, the next
   * sequence number, whether `stream.end` arrived, the queue to the consumer,
   * and how many consumers have gone on after being handed an item.
   */
  datatype Receiver = Receiver(allowance: int, expected: nat, ended: bool, queue: Queue<Payload>, regranted: nat)

  predicate FreshWindow(w: Window) { !w.closed && w.credit == w.issued == w.served == 0 }

  predicate FreshReceiver(r: Receiver) {
    && r.allowance == r.expected == r.regranted == 0 && !r.ended
    && r.queue.pushed == [] && r.queue.taken == r.queue.asked == r.queue.ends == 0 && r.queue.mode == Live
  }

  // --- The client half ----------------------------------------------------------

  /** The client's input stream: `requests` are the values its callers sent, `continued` of them went on. */
  datatype ClientInput = ClientInput(
    window: Window,
    requests: seq<Payload>,
    continued: nat,
    sequence: nat,
    closed: bool,
    produced: seq<Payload>)

  datatype Client = Client(ready: bool, fate: Fate, output: Receiver, input: ClientInput)

  predicate FreshClient(c: Client) {
    && !c.ready && c.fate == Running && FreshReceiver(c.output) && FreshWindow(c.input.window)
    && c.input.requests == [] && c.input.continued == c.input.sequence == 0
    && !c.input.closed && c.input.produced == []
  }

  datatype ClientTurn = ClientTurn(client: Client, frame: Option<Body>)

  /** After `call.open` is written: allow, and grant, the first output items. */
  function ClientOpened(k: Kind, c: Client): ClientTurn {
    if k.HasOutput() then
      ClientTurn(c.(ready := true, output := c.output.(allowance := c.output.allowance + INITIAL_STREAM_CREDIT)),
                 Some(Body.Window(FromServer, INITIAL_STREAM_CREDIT)))
    else ClientTurn(c.(ready := true), None)
  }

  /** A caller sends an input item: up to the wait for credit. */
  function ClientSend(c: Client, v: Payload): Client {
    if c.input.closed then c
    else c.(input := c.input.(window := c.input.window.Acquire(), requests := c.input.requests + [v]))
  }

  /** A send that got its credit goes on; `large` when the item is over the frame size limit. */
  function ClientContinue(c: Client, large: bool): ClientTurn
    requires c.input.continued < |c.input.requests|
  {
    var v := c.input.requests[c.input.continued];
    var i := c.input.(continued := c.input.continued + 1);
    if c.fate != Running then ClientTurn(c.(input := i), None)
    else
      var item := Item(FromClient, i.sequence, v);
      var i := i.(sequence := i.sequence + 1);
      if large then ClientAbort(c.(input := i))
      else ClientTurn(c.(input := i.(produced := i.produced + [v])), Some(item))
  }

  function ClientCloseInput(c: Client): ClientTurn {
    if c.input.closed || c.fate != Running then ClientTurn(c, None)
    else ClientTurn(c.(input := c.input.(closed := true)), Some(End(FromClient)))
  }

  /** The consumer asks for the next output item. */
  function ClientNext(c: Client): Client {
    c.(output := c.output.(queue := c.output.queue.Next()))
  }

  /** A consumer that was handed an item goes on: allow, and grant, one more. */
  function ClientResume(c: Client): ClientTurn {
    var o := c.output.(regranted := c.output.regranted + 1);
    if !o.ended && c.fate == Running then
      ClientTurn(c.(output := o.(allowance := o.allowance + 1)), Some(Body.Window(FromServer, 1)))
    else ClientTurn(c.(output := o), None)
  }

  /** The state's end: no more credit, and the consumer's queue failed or closed. */
  function ClientOver(c: Client, fate: Fate, failed: bool): Client {
    var q := c.output.queue;
    Client(c.ready, fate, c.output.(queue := if failed then q.Fail() else q.Close()),
           c.input.(window := c.input.window.Close()))
  }

  function ClientFail(c: Client, fate: Fate): Client {
    if c.fate != Running then c else ClientOver(c, fate, true)
  }

  /** Deadline, idle timeout, abort signal, or a failure of the caller's side. */
  function ClientAbort(c: Client): ClientTurn {
    if c.fate != Running then ClientTurn(c, None) else ClientTurn(ClientOver(c, Local, true), Some(Cancel))
  }

  /** The consumer gives up; what is queued stays readable. */
  function ClientCancel(c: Client): ClientTurn {
    if c.fate != Running then ClientTurn(c, None) else ClientTurn(ClientOver(c, Local, false), Some(Cancel))
  }

  /** `valid`: the payload passes the item schema. Calls without output know no items. */
  function ClientItem(k: Kind, c: Client, direction: Direction, sequence: nat, v: Payload, valid: bool): Client {
    if c.fate != Running then c
    else if !k.HasOutput() || direction != FromServer then ClientFail(c, Protocol)
    else if c.output.ended || c.output.allowance <= 0 then ClientFail(c, Protocol)
    else if sequence != c.output.expected then ClientFail(c, Protocol)
    else
      var o := c.output.(allowance := c.output.allowance - 1, expected := c.output.expected + 1);
      if !valid then ClientFail(c.(output := o), Invalid)
      else c.(output := o.(queue := o.queue.Push(v)))
  }

  function ClientEnd(k: Kind, c: Client, direction: Direction): Client {
    if c.fate != Running then c
    else if !k.HasOutput() || direction != FromServer || c.output.ended then ClientFail(c, Protocol)
    else c.(output := c.output.(ended := true))
  }

  function ClientWindow(k: Kind, c: Client, direction: Direction, credit: int): Client {
    if c.fate != Running then c
    else if !k.HasInput() || direction != FromClient then ClientFail(c, Protocol)
    else if credit <= 0 then ClientFail(c, Protocol)
    else c.(input := c.input.(window := c.input.window.Grant(credit)))
  }

  function ClientResult(k: Kind, c: Client): Client {
    if c.fate != Running then c
    else if k.HasOutput() && !c.output.ended then ClientFail(c, Protocol)
    else ClientOver(c, Completed, false)
  }

  /** Frames a client does not expect are ignored. */
  function ClientReceive(k: Kind, c: Client, body: Body, valid: bool): Client {
    match body
    case Item(d, n, v) => ClientItem(k, c, d, n, v, valid)
    case End(d) => ClientEnd(k, c, d)
    case Window(d, n) => ClientWindow(k, c, d, n)
    case Result => ClientResult(k, c)
    case Error => ClientFail(c, Remote)
    case Open => c
    case Cancel => c
  }

  // --- The server half ----------------------------------------------------------

  /** What a handler asks of its output, one at a time. */
  datatype Request = SendItem(v: Payload) | CloseOutput

  /** What the output is waiting for: credit, or its last frame (the `mark`-th) to be written. */
  datatype Busy = Idle | AwaitCredit(v: Payload) | AwaitWritten(mark: nat, item: bool)

  datatype ServerOutput = ServerOutput(
    window: Window,
    sequence: nat,
    closed: bool,
    todo: seq<Request>,
    busy: Busy,
    produced: seq<Payload>)

  /** The terminal frame handed to the writer, or the need to replace one over the size limit. */
  datatype Ending = Ending(fate: Fate, final: Option<Body>, replacing: bool, removed: bool)

  datatype Server = Server(accepted: bool, handlerDone: bool, end: Ending, input: Receiver, output: ServerOutput)

  /** A call whose handler has not started. */
  predicate FreshServer(v: Server) {
    && !v.handlerDone && !v.end.replacing && FreshReceiver(v.input) && FreshWindow(v.output.window)
    && v.output.sequence == 0 && !v.output.closed && v.output.todo == [] && v.output.busy.Idle?
    && v.output.produced == []
  }

  datatype ServerTurn = ServerTurn(server: Server, frame: Option<Body>)

  /** What becomes of a `call.open`. */
  datatype Decision = Accept | BadRequest | Reject

  /**
   * The session gets `call.open`: a rejected call is answered at once; an
   * accepted one starts its handler, granting the first input items.
   */
  function ServerOpen(k: Kind, s: Server, decision: Decision): ServerTurn {
    match decision
    case Reject =>
      ServerTurn(s.(end := s.end.(fate := Local, final := Some(Error), removed := true)), Some(Error))
    case BadRequest =>
      ServerFail(s.(accepted := true), Invalid, false)
    case Accept =>
      if k.HasInput() then
        ServerTurn(s.(accepted := true, input := s.input.(allowance := INITIAL_STREAM_CREDIT)),
                   Some(Body.Window(FromClient, INITIAL_STREAM_CREDIT)))
      else ServerTurn(s.(accepted := true), None)
  }

  function ServerCleanup(s: Server, end: Ending): Server {
    s.(end := end, input := s.input.(queue := s.input.queue.Fail()),
       output := s.output.(window := s.output.window.Close()))
  }

  /** Answer with the terminal frame; one over the size limit is replaced afterwards. */
  function ServerFinish(s: Server, frame: Body, fate: Fate, large: bool): ServerTurn {
    if s.end.fate != Running then ServerTurn(s, None)
    else if large then ServerTurn(ServerCleanup(s, s.end.(fate := Local, replacing := true)), None)
    else ServerTurn(ServerCleanup(s, s.end.(fate := fate, final := Some(frame))), Some(frame))
  }

  function ServerFail(s: Server, fate: Fate, large: bool): ServerTurn { ServerFinish(s, Error, fate, large) }

  function ServerReplace(s: Server): ServerTurn {
    ServerTurn(s.(end := s.end.(final := Some(Error), replacing := false)), Some(Error))
  }

  /** The connection is gone: end without a frame. */
  function ServerDisconnect(s: Server): Server {
    if s.end.fate != Running then s else ServerCleanup(s, s.end.(fate := Local, removed := true))
  }

  function ServerItem(k: Kind, s: Server, direction: Direction, sequence: nat, v: Payload, valid: bool): ServerTurn {
    if !k.HasInput() || direction != FromClient
       || s.input.ended || s.input.allowance <= 0 || sequence != s.input.expected
    then ServerFail(s, Protocol, false)
    else if !valid then ServerFail(s, Invalid, false)
    else
      ServerTurn(s.(input := s.input.(allowance := s.input.allowance - 1, expected := s.input.expected + 1,
                                      queue := s.input.queue.Push(v))), None)
  }

  function ServerEnd(k: Kind, s: Server, direction: Direction): ServerTurn {
    if !k.HasInput() || direction != FromClient || s.input.ended then ServerFail(s, Protocol, false)
    else ServerTurn(s.(input := s.input.(ended := true, queue := s.input.queue.Close())), None)
  }

  function ServerWindow(k: Kind, s: Server, direction: Direction, credit: int): ServerTurn {
    if !k.HasOutput() || direction != FromServer then ServerFail(s, Protocol, false)
    else if credit <= 0 then ServerFail(s, Protocol, false)
    else ServerTurn(s.(output := s.output.(window := s.output.window.Grant(credit))), None)
  }

  /** A frame for a call the session no longer, or never, knew is dropped. */
  function ServerReceive(k: Kind, s: Server, body: Body, valid: bool, decision: Decision): ServerTurn {
    if !s.accepted && s.end.fate == Running then
      if body.Open? then ServerOpen(k, s, decision) else ServerTurn(s, None)
    else if s.end.removed then ServerTurn(s, None)
    else
      match body
      case Open => ServerFail(s, Protocol, false)
      case Cancel => ServerFail(s, Local, false)
      case Window(d, n) => ServerWindow(k, s, d, n)
      case Item(d, n, v) => ServerItem(k, s, d, n, v, valid)
      case End(d) => ServerEnd(k, s, d)
      case Result => ServerFail(s, Protocol, false)
      case Error => ServerFail(s, Protocol, false)
  }

  /** The handler asks for its next input item. */
  function ServerNext(s: Server): Server { s.(input := s.input.(queue := s.input.queue.Next())) }

  /** The handler was handed an item: grant one more, then let it see the item. */
  function ServerResume(s: Server): ServerTurn {
    var i := s.input.(regranted := s.input.regranted + 1);
    if s.end.fate == Running && !i.ended then
      ServerTurn(s.(input := i.(allowance := i.allowance + 1)), Some(Body.Window(FromClient, 1)))
    else ServerTurn(s.(input := i), None)
  }

  function ServerAsk(s: Server, r: Request): Server { s.(output := s.output.(todo := s.output.todo + [r])) }

  /**
   * Take up the next request. `accepted` is the number of data frames the
   * writer has accepted so far, which makes the next one the `accepted + 1`-th.
   * An item that fails validation ends a server stream; a duplex handler only
   * has its send refused.
   */
  function ServerTakeUp(k: Kind, s: Server, accepted: nat, valid: bool): ServerTurn
    requires s.output.todo != []
  {
    var r := s.output.todo[0];
    var o := s.output.(todo := s.output.todo[1..]);
    if s.end.fate != Running || o.closed then ServerTurn(s.(output := o), None)
    else match r
      case SendItem(v) =>
        if valid then ServerTurn(s.(output := o.(window := o.window.Acquire(), busy := AwaitCredit(v))), None)
        else if k.Duplex? then ServerTurn(s.(output := o), None)
        else ServerFail(s.(output := o), Invalid, false)
      case CloseOutput =>
        ServerTurn(s.(output := o.(closed := true, busy := AwaitWritten(accepted + 1, false))),
                   Some(End(FromServer)))
  }

  /** The item got its credit, or the call ended meanwhile. */
  function ServerContinue(s: Server, accepted: nat, large: bool): ServerTurn
    requires s.output.busy.AwaitCredit?
  {
    var v := s.output.busy.v;
    var o := s.output;
    if s.end.fate != Running then ServerTurn(s.(output := o.(busy := Idle)), None)
    else if large then ServerFail(s.(output := o.(busy := Idle)), Local, false)
    else
      ServerTurn(s.(output := o.(busy := AwaitWritten(accepted + 1, true), produced := o.produced + [v])),
                 Some(Item(FromServer, o.sequence, v)))
  }

  function ServerWritten(s: Server): Server
    requires s.output.busy.AwaitWritten?
  {
    var o := s.output;
    s.(output := o.(busy := Idle, sequence := if o.busy.item then o.sequence + 1 else o.sequence))
  }

  /** The handler is through; its output is closed after what it asked for. */
  function ServerReturn(k: Kind, s: Server): Server {
    var s := s.(handlerDone := true);
    if k.HasOutput() then ServerAsk(s, CloseOutput) else s
  }

  function ServerRemove(s: Server): Server { s.(end := s.end.(removed := true)) }

  // --- A call's part of a frame writer --------------------------------------------

  /** Control frames and data frames waiting; `log` has every data frame accepted, `sent` counts those written. */
  datatype Lane = Lane(control: seq<Body>, call: seq<Body>, log: seq<Body>, sent: nat)

  /**
   * Hand a frame to the writer. A cancel withdraws the data frames still
   * waiting, and goes out itself unless `call.open` is one of them.
   */
  function Submit(l: Lane, body: Body): Lane {
    if body.Cancel? then
      if Open in l.call then l.(call := [])
      else l.(call := [], control := l.control + [body])
    else if IsControlBody(body) then l.(control := l.control + [body])
    else l.(call := l.call + [body], log := l.log + [body])
  }

  function Emit(l: Lane, body: Option<Body>): Lane {
    if body.Some? then Submit(l, body.value) else l
  }

  predicate CanTransmit(l: Lane) { l.control != [] || l.call != [] }

  function NextBody(l: Lane): Body
    requires CanTransmit(l)
  {
    if l.control != [] then l.control[0] else l.call[0]
  }

  function Transmitted(l: Lane): Lane
    requires CanTransmit(l)
  {
    if l.control != [] then l.(control := l.control[1..])
    else l.(call := l.call[1..], sent := l.sent + 1)
  }

  // --- The whole call -------------------------------------------------------------

  datatype System = System(
    client: Client,
    up: Lane,
    toServer: seq<Body>,
    server: Server,
    down: Lane,
    toClient: seq<Body>,
    serverGot: nat,
    clientGot: nat,
    cut: bool)

  predicate FreshLane(l: Lane, data: seq<Body>) { l.control == [] && l.call == l.log == data && l.sent == 0 }

  /** The client has just handed `call.open` to its writer. */
  predicate IsStart(s: System) {
    && FreshClient(s.client) && FreshLane(s.up, [Open]) && s.toServer == []
    && FreshServer(s.server) && !s.server.accepted && s.server.end.fate == Running
    && s.server.end.final == None && !s.server.end.removed
    && FreshLane(s.down, []) && s.toClient == []
    && s.serverGot == s.clientGot == 0 && !s.cut
  }

  datatype Label =
    // the client
    | COpened
    | CSend(v: Payload)
    | CContinue(large: bool)
    | CCloseInput
    | CNext
    | CResume
    | CAbort
    | CCancel
    | CReceive(valid: bool)
    | CLost
    // the server
    | SReceive(valid: bool, decision: Decision)
    | SNext
    | SResume
    | SAsk(r: Request)
    | STakeUp(valid: bool)
    | SContinue(large: bool)
    | SWritten
    | SReturn
    | SFinish(large: bool)
    | SFail(fate: Fate, large: bool)
    | SReplace
    | SRemove
    | SLost
    // the writers and the connection
    | TransmitUp
    | TransmitDown
    | Cut(keepUp: nat, keepDown: nat)

  function Data(wire: seq<Body>): seq<Body> { Filter(wire, (b: Body) => !IsControlBody(b)) }

  lemma DataSnoc(wire: seq<Body>, b: Body)
    ensures Data(wire + [b]) == if IsControlBody(b) then Data(wire) else Data(wire) + [b]
  {
    FilterConcat(wire, [b], (b: Body) => !IsControlBody(b));
  }

  function ByClient(s: System, t: ClientTurn): System {
    s.(client := t.client, up := Emit(s.up, t.frame))
  }

  function ByServer(s: System, t: ServerTurn): System {
    s.(server := t.server, down := Emit(s.down, t.frame))
  }

  /** A half takes the head of its wire. */
  function ServerGets(s: System, t: ServerTurn): System
    requires s.toServer != []
  {
    ByServer(s, t).(toServer := s.toServer[1..],
                    serverGot := if IsControlBody(s.toServer[0]) then s.serverGot else s.serverGot + 1)
  }

  function ClientGets(s: System, c: Client): System
    requires s.toClient != []
  {
    s.(client := c, toClient := s.toClient[1..],
       clientGot := if IsControlBody(s.toClient[0]) then s.clientGot else s.clientGot + 1)
  }

  /** The output waits for nothing that is still to come. */
  predicate OutputSettled(s: System) {
    s.server.output.closed && !(s.server.output.busy.AwaitWritten? && !s.server.output.busy.item)
  }

  predicate Enabled(k: Kind, s: System, l: Label) {
    var c, v := s.client, s.server;
    match l
    case COpened => !c.ready && s.up.sent >= 1
    // `pumpInput` awaits each item's credit and its frame; `sendInput` does not.
    case CSend(_) =>
      k.HasInput() && c.ready
      && (k.ClientStream? ==> c.input.continued == |c.input.requests| && s.up.call == [])
    case CContinue(_) => c.input.continued < c.input.window.served && c.input.continued < |c.input.requests|
    case CCloseInput =>
      k.HasInput() && c.ready
      && (k.ClientStream? ==> c.input.continued == |c.input.requests| && s.up.call == [])
    case CNext => k.HasOutput() && c.ready
    case CResume => k.HasOutput() && c.output.regranted < c.output.queue.taken
    case CAbort => k.HasOutput() ==> c.ready
    case CCancel => k.HasOutput() && c.ready
    case CReceive(_) => s.toClient != []
    case CLost => s.cut
    case SReceive(_, _) => s.toServer != []
    case SNext => k.HasInput() && v.accepted && v.end.fate == Running && v.input.queue.asked == v.input.regranted
    case SResume => k.HasInput() && v.input.regranted < v.input.queue.taken
    case SAsk(r) =>
      && k.HasOutput() && v.accepted
      && (k.ServerStream? ==> r.SendItem? && !v.handlerDone && v.output.todo == [] && v.output.busy == Idle)
    case STakeUp(_) => v.output.todo != [] && v.output.busy == Idle
    case SContinue(_) => v.output.busy.AwaitCredit? && (v.output.window.served == v.output.window.issued || v.output.window.closed)
    case SWritten => v.output.busy.AwaitWritten? && s.down.sent >= v.output.busy.mark
    case SReturn =>
      v.accepted && !v.handlerDone && (k.ServerStream? ==> v.output.todo == [] && v.output.busy == Idle)
    case SFinish(_) => v.accepted && v.handlerDone && v.end.fate == Running && (k.HasOutput() ==> OutputSettled(s))
    case SFail(fate, _) => v.accepted && (fate == Local || fate == Invalid)
    case SReplace => v.end.replacing
    case SRemove => v.end.fate != Running && (s.cut || (v.end.final.Some? && s.down.sent == |s.down.log|))
    case SLost => s.cut && v.accepted
    case TransmitUp => !s.cut && CanTransmit(s.up)
    case TransmitDown => !s.cut && CanTransmit(s.down)
    case Cut(i, j) => !s.cut && i <= |s.toServer| && j <= |s.toClient|
  }

  function Step(k: Kind, s: System, l: Label): System
    requires Enabled(k, s, l)
  {
    var c, v := s.client, s.server;
    match l
    case COpened => ByClient(s, ClientOpened(k, c))
    case CSend(p) => s.(client := ClientSend(c, p))
    case CContinue(large) => ByClient(s, ClientContinue(c, large))
    case CCloseInput => ByClient(s, ClientCloseInput(c))
    case CNext => s.(client := ClientNext(c))
    case CResume => ByClient(s, ClientResume(c))
    case CAbort => ByClient(s, ClientAbort(c))
    case CCancel => ByClient(s, ClientCancel(c))
    case CReceive(valid) =>
      ClientGets(s, ClientReceive(k, c, s.toClient[0], valid))
    case CLost => s.(client := ClientFail(c, Local))
    case SReceive(valid, decision) =>
      ServerGets(s, ServerReceive(k, v, s.toServer[0], valid, decision))
    case SNext => s.(server := ServerNext(v))
    case SResume => ByServer(s, ServerResume(v))
    case SAsk(r) => s.(server := ServerAsk(v, r))
    case STakeUp(valid) => ByServer(s, ServerTakeUp(k, v, |s.down.log|, valid))
    case SContinue(large) => ByServer(s, ServerContinue(v, |s.down.log|, large))
    case SWritten => s.(server := ServerWritten(v))
    case SReturn => s.(server := ServerReturn(k, v))
    case SFinish(large) => ByServer(s, ServerFinish(v, Result, Completed, large))
    case SFail(fate, large) => ByServer(s, ServerFail(v, fate, large))
    case SReplace => ByServer(s, ServerReplace(v))
    case SRemove => s.(server := ServerRemove(v))
    case SLost => s.(server := ServerDisconnect(v))
    case TransmitUp => s.(toServer := s.toServer + [NextBody(s.up)], up := Transmitted(s.up))
    case TransmitDown => s.(toClient := s.toClient + [NextBody(s.down)], down := Transmitted(s.down))
    case Cut(i, j) => s.(toServer := s.toServer[..i], toClient := s.toClient[..j], cut := true)
  }
}
