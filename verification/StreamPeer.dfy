/**
 * Each half against any peer at all: whatever frames arrive, a half accuses its
 * peer exactly when a frame breaks the rules of a stream, and takes in exactly
 * the frames that keep them. The rules are about what was received and what was
 * granted before, not about the fields of the half.
 */
module StreamPeer {

  import opened Wrappers
  import opened Protocol
  import opened Flow
  import opened Stream
  import opened StreamInvariant
  import opened StreamSteps
  import opened StreamTheorems

  // --- The rules ----------------------------------------------------------------------------------

  /** The items among the frames heard. */
  function ItemsIn(heard: seq<Body>): seq<Payload> {
    if heard == [] then []
    else
      var b := heard[|heard| - 1];
      ItemsIn(heard[..|heard| - 1]) + if b.Item? then [b.payload] else []
  }

  predicate EndIn(heard: seq<Body>) { exists i :: 0 <= i < |heard| && heard[i].End? }

  /**
   * The rules of a stream, for a half that takes items of direction `d`, if it
   * `takes` any, and sends items the other way, if it `gives` any: items come
   * before the end, within the credit granted, and numbered from zero; there is
   * one end; and credit is for what the half sends, and positive.
   */
  predicate Fair(d: Direction, takes: bool, gives: bool, heard: seq<Body>, granted: int, b: Body)
    requires b.Item? || b.End? || b.Window?
  {
    match b
    case Item(direction, n, _) =>
      takes && direction == d && !EndIn(heard) && |ItemsIn(heard)| < granted && n == |ItemsIn(heard)|
    case End(direction) => takes && direction == d && !EndIn(heard)
    case Window(direction, credit) => gives && direction != d && credit > 0
  }

  lemma HeardSnoc(heard: seq<Body>, b: Body)
    ensures ItemsIn(heard + [b]) == ItemsIn(heard) + if b.Item? then [b.payload] else []
    ensures EndIn(heard + [b]) <==> EndIn(heard) || b.End?
  {
    assert (heard + [b])[..|heard|] == heard;
    assert (heard + [b])[|heard|] == b;
    if i :| 0 <= i < |heard| && heard[i].End? {
      assert (heard + [b])[i].End?;
    }
  }

  // --- The client -----------------------------------------------------------------------------------

  /** A step of the client or its writer, or any frame from the network. */
  datatype ClientMove = ClientOwn(l: Label) | ClientHears(b: Body, valid: bool)

  /** The client takes `b` from its wire, whoever put it there. */
  function Delivered(k: Kind, s: System, b: Body, valid: bool): System {
    Step(k, s.(toClient := [b] + s.toClient), CReceive(valid))
  }

  ghost predicate ClientMoves(k: Kind, s: System, s': System, move: ClientMove) {
    match move
    case ClientOwn(l) => (ClientAlone(l) || l.TransmitUp?) && Enabled(k, s, l) && s' == Step(k, s, l)
    case ClientHears(b, valid) => s' == Delivered(k, s, b, valid)
  }

  /** The credit for items that the client submitted so far. */
  ghost function ClientGranted(s: System): int {
    Credits(FromServer, s.up.control) + Credits(FromServer, s.toServer)
  }

  ghost predicate IsClientRun(k: Kind, states: seq<System>, moves: seq<ClientMove>) {
    && |states| == |moves| + 1 && IsStart(states[0])
    && forall i :: 0 <= i < |moves| ==> ClientMoves(k, states[i], states[i + 1], moves[i])
  }

  /** The frames that an open call heard. */
  ghost function ClientHeard(states: seq<System>, moves: seq<ClientMove>, n: nat): seq<Body>
    requires n <= |moves| < |states|
  {
    if n == 0 then []
    else
      var before := ClientHeard(states, moves, n - 1);
      if moves[n - 1].ClientHears? && states[n - 1].client.fate == Running then before + [moves[n - 1].b] else before
  }

  /** While a call is open, its fields count what it heard and what it granted. */
  ghost predicate ClientCounts(k: Kind, c: Client, granted: int, items: seq<Payload>, ended: bool) {
    var o := c.output;
    && (c.fate == Running ==>
          && o.queue.pushed == items && o.expected == |items| && (o.ended <==> ended)
          && o.allowance + o.expected == granted && o.queue.mode == Live)
    && o.queue.pushed <= items
    && o.queue.taken <= |o.queue.pushed| <= o.expected && o.regranted <= o.queue.taken
    && 0 <= o.allowance && o.allowance + o.expected <= INITIAL_STREAM_CREDIT + o.regranted
    && (!c.ready || !k.HasOutput() ==> o.allowance + o.expected == 0)
  }

  function CreditOf(d: Direction, frame: Option<Body>): int {
    if frame.Some? && frame.value.Window? && frame.value.direction == d then frame.value.credit else 0
  }

  lemma EmitCredits(d: Direction, l: Lane, frame: Option<Body>)
    ensures Credits(d, Emit(l, frame).control) == Credits(d, l.control) + CreditOf(d, frame)
    ensures (forall b <- l.call :: !b.Window?) ==> forall b <- Emit(l, frame).call :: !b.Window?
  {
    if frame.Some? { CreditsSnoc(d, l.control, frame.value); }
  }

  lemma TransmitCredits(d: Direction, l: Lane, wire: seq<Body>)
    requires CanTransmit(l) && forall b <- l.call :: !b.Window?
    ensures Credits(d, Transmitted(l).control) + Credits(d, wire + [NextBody(l)]) == Credits(d, l.control) + Credits(d, wire)
    ensures forall b <- Transmitted(l).call :: !b.Window?
  {
    CreditsSnoc(d, wire, NextBody(l));
  }

  lemma ClientOwnCounts(k: Kind, s: System, l: Label, granted: int, items: seq<Payload>, ended: bool)
    requires ClientCounts(k, s.client, granted, items, ended) && Enabled(k, s, l) && ClientAlone(l)
    ensures var t := ClientTurnOf(k, s, l);
            ClientCounts(k, t.client, granted + CreditOf(FromServer, t.frame), items, ended)
  {
  }

  /** What the call makes of a frame; `fair` when the frame keeps the rules. */
  ghost predicate ClientTakes(c: Client, c': Client, b: Body, valid: bool, fair: bool) {
    if !fair then c'.fate == Fate.Protocol && c'.output.queue.pushed == c.output.queue.pushed && c'.output.queue.mode == Failed
    else
      match b
      case Item(_, _, v) =>
        if valid then c'.fate == Running && c'.output.queue.pushed == c.output.queue.pushed + [v]
        else c'.fate == Invalid && c'.output.queue.pushed == c.output.queue.pushed && c'.output.queue.mode == Failed
      case End(_) => c'.fate == Running && c'.output.queue == c.output.queue
      case Window(_, n) =>
        && c'.fate == Running && c'.output == c.output && n > 0
        && c'.input.window == c.input.window.Grant(n)
      case Result => c'.fate == Completed && c'.output.queue.pushed == c.output.queue.pushed && c'.output.queue.mode == Ended
      case Error => c'.fate == Remote && c'.output.queue.pushed == c.output.queue.pushed && c'.output.queue.mode == Failed
      case Open => c' == c
      case Cancel => c' == c
  }

  /** The rules for the client: a result only comes after the end of the output. */
  predicate FairToClient(k: Kind, heard: seq<Body>, granted: int, b: Body) {
    match b
    case Result => k.HasOutput() ==> EndIn(heard)
    case Error => true
    case Open => true
    case Cancel => true
    case _ => Fair(FromServer, k.HasOutput(), k.HasInput(), heard, granted, b)
  }

  lemma ClientJudgesFrame(k: Kind, s: System, heard: seq<Body>, granted: int, b: Body, valid: bool)
    requires ClientCounts(k, s.client, granted, ItemsIn(heard), EndIn(heard)) && s.client.fate == Running
    ensures ClientTakes(s.client, Delivered(k, s, b, valid).client, b, valid, FairToClient(k, heard, granted, b))
  {
  }

  /** The items of a call, and whether they ended, once `b` was heard. */
  function MoreItems(items: seq<Payload>, b: Body): seq<Payload> { if b.Item? then items + [b.payload] else items }

  lemma HearingCounts(k: Kind, c: Client, granted: int, items: seq<Payload>, ended: bool, b: Body, valid: bool)
    requires ClientCounts(k, c, granted, items, ended) && c.fate == Running
    ensures ClientCounts(k, ClientReceive(k, c, b, valid), granted, MoreItems(items, b), ended || b.End?)
  {
    if b.Item? {
      HearingItem(k, c, granted, items, ended, b, valid);
    } else if b.End? {
      HearingEnd(k, c, granted, items, ended, b, valid);
    } else {
      OtherOutput(k, c, b, valid);
      OutputCounts(k, c, ClientReceive(k, c, b, valid), granted, items, ended);
    }
  }

  lemma HearingItem(k: Kind, c: Client, granted: int, items: seq<Payload>, ended: bool, b: Body, valid: bool)
    requires ClientCounts(k, c, granted, items, ended) && c.fate == Running && b.Item?
    ensures ClientCounts(k, ClientReceive(k, c, b, valid), granted, items + [b.payload], ended)
  {
  }

  lemma HearingEnd(k: Kind, c: Client, granted: int, items: seq<Payload>, ended: bool, b: Body, valid: bool)
    requires ClientCounts(k, c, granted, items, ended) && c.fate == Running && b.End?
    ensures ClientCounts(k, ClientReceive(k, c, b, valid), granted, items, true)
  {
  }

  /** The output goes on as it was, or is over. */
  ghost predicate SameOutput(c: Client, c': Client) {
    var q := c.output.queue;
    && c'.ready == c.ready && c'.output == c.output.(queue := c'.output.queue)
    && (c'.output.queue == q || c'.output.queue == q.Fail() || c'.output.queue == q.Close())
    && (c'.fate == Running ==> c'.output == c.output)
  }

  lemma OtherOutput(k: Kind, c: Client, b: Body, valid: bool)
    requires !b.Item? && !b.End?
    ensures SameOutput(c, ClientReceive(k, c, b, valid))
  {
  }

  lemma OutputCounts(k: Kind, c: Client, c': Client, granted: int, items: seq<Payload>, ended: bool)
    requires ClientCounts(k, c, granted, items, ended) && c.fate == Running && SameOutput(c, c')
    ensures ClientCounts(k, c', granted, items, ended)
  {
  }

  lemma LateHearing(k: Kind, c: Client, granted: int, items: seq<Payload>, ended: bool, b: Body, valid: bool)
    requires ClientCounts(k, c, granted, items, ended) && c.fate != Running
    ensures ClientCounts(k, ClientReceive(k, c, b, valid), granted, items, ended)
  {
  }

  ghost predicate ClientSound(k: Kind, s: System, heard: seq<Body>) {
    ClientCounts(k, s.client, ClientGranted(s), ItemsIn(heard), EndIn(heard)) && forall b <- s.up.call :: !b.Window?
  }

  lemma ClientHearsSound(k: Kind, s: System, b: Body, valid: bool, heard: seq<Body>)
    requires ClientSound(k, s, heard)
    ensures ClientSound(k, Delivered(k, s, b, valid), if s.client.fate == Running then heard + [b] else heard)
  {
    if s.client.fate == Running {
      HeardSnoc(heard, b);
      HearingCounts(k, s.client, ClientGranted(s), ItemsIn(heard), EndIn(heard), b, valid);
    } else {
      LateHearing(k, s.client, ClientGranted(s), ItemsIn(heard), EndIn(heard), b, valid);
    }
  }

  lemma ClientOwnSound(k: Kind, s: System, l: Label, heard: seq<Body>)
    requires ClientSound(k, s, heard) && Enabled(k, s, l) && (ClientAlone(l) || l.TransmitUp?)
    ensures ClientSound(k, Step(k, s, l), heard)
  {
    if l.TransmitUp? {
      TransmitCredits(FromServer, s.up, s.toServer);
    } else {
      ClientOwnCounts(k, s, l, ClientGranted(s), ItemsIn(heard), EndIn(heard));
      EmitCredits(FromServer, s.up, ClientTurnOf(k, s, l).frame);
      ClientTurnStep(k, s, l);
    }
  }

  lemma ClientMoveSound(k: Kind, s: System, s': System, move: ClientMove, heard: seq<Body>)
    requires ClientSound(k, s, heard) && ClientMoves(k, s, s', move)
    ensures ClientSound(k, s', if move.ClientHears? && s.client.fate == Running then heard + [move.b] else heard)
  {
    match move
    case ClientHears(b, valid) => ClientHearsSound(k, s, b, valid, heard);
    case ClientOwn(l) => ClientOwnSound(k, s, l, heard);
  }

  lemma ClientStartSound(k: Kind, s: System, heard: seq<Body>)
    requires IsStart(s) && |heard| == 0
    ensures ClientSound(k, s, heard)
  {
  }

  lemma NextClientSound(k: Kind, states: seq<System>, moves: seq<ClientMove>, n: nat)
    requires IsClientRun(k, states, moves) && n < |moves|
    ensures ClientCarries(k, states, moves, n)
  {
    forall heard | ClientSound(k, states[n], heard)
      ensures ClientSound(k, states[n + 1], if moves[n].ClientHears? && states[n].client.fate == Running then heard + [moves[n].b] else heard)
    {
      ClientMoveSound(k, states[n], states[n + 1], moves[n], heard);
    }
  }

  /** What is sound before the move is sound after it. */
  ghost predicate ClientCarries(k: Kind, states: seq<System>, moves: seq<ClientMove>, i: nat)
    requires i < |moves| < |states|
  {
    forall heard :: ClientSound(k, states[i], heard) ==>
      ClientSound(k, states[i + 1], if moves[i].ClientHears? && states[i].client.fate == Running then heard + [moves[i].b] else heard)
  }

  lemma {:induction false} ClientChain(k: Kind, states: seq<System>, moves: seq<ClientMove>, n: nat)
    requires n <= |moves| < |states| && ClientSound(k, states[0], ClientHeard(states, moves, 0))
    requires forall i :: 0 <= i < |moves| ==> ClientCarries(k, states, moves, i)
    ensures ClientSound(k, states[n], ClientHeard(states, moves, n))
  {
    if n > 0 {
      ClientChain(k, states, moves, n - 1);
      assert ClientCarries(k, states, moves, n - 1);
    }
  }

  lemma ClientRunSound(k: Kind, states: seq<System>, moves: seq<ClientMove>, n: nat)
    requires IsClientRun(k, states, moves) && n <= |moves|
    ensures ClientSound(k, states[n], ClientHeard(states, moves, n))
  {
    ClientStartSound(k, states[0], ClientHeard(states, moves, 0));
    forall i | 0 <= i < |moves| ensures ClientCarries(k, states, moves, i) {
      NextClientSound(k, states, moves, i);
    }
    ClientChain(k, states, moves, n);
  }

  /**
   * Whatever the network brings, an open client accuses its peer exactly when a
   * frame breaks the rules of a stream, given what the client heard and granted
   * before; a frame that keeps them has the effect it should, and no other.
   */
  lemma ClientJudges(k: Kind, states: seq<System>, moves: seq<ClientMove>, n: nat)
    requires IsClientRun(k, states, moves) && n < |moves| && moves[n].ClientHears? && states[n].client.fate == Running
    ensures var fair := FairToClient(k, ClientHeard(states, moves, n), ClientGranted(states[n]), moves[n].b);
            && ClientTakes(states[n].client, states[n + 1].client, moves[n].b, moves[n].valid, fair)
            && (states[n + 1].client.fate == Fate.Protocol <==> !fair)
  {
    ClientRunSound(k, states, moves, n);
    ClientJudgesFrame(k, states[n], ClientHeard(states, moves, n), ClientGranted(states[n]), moves[n].b, moves[n].valid);
  }

  /** Against any peer, a client buffers no more than the initial credit, and hands out what it heard, in order. */
  lemma ClientIsSafe(k: Kind, states: seq<System>, moves: seq<ClientMove>, n: nat)
    requires IsClientRun(k, states, moves) && n <= |moves|
    ensures Held(states[n].client.output) <= INITIAL_STREAM_CREDIT
    ensures Taken(states[n].client.output.queue) <= ItemsIn(ClientHeard(states, moves, n))
  {
    ClientRunSound(k, states, moves, n);
  }

  // --- The server -----------------------------------------------------------------------------------

  datatype ServerMove = ServerOwn(l: Label) | ServerHears(b: Body, valid: bool, decision: Decision)

  /** The server takes `b` from its wire, whoever put it there. */
  function Brought(k: Kind, s: System, b: Body, valid: bool, decision: Decision): System {
    Step(k, s.(toServer := [b] + s.toServer), SReceive(valid, decision))
  }

  ghost predicate ServerMoves(k: Kind, s: System, s': System, move: ServerMove) {
    match move
    case ServerOwn(l) => (ServerAlone(l) || l.TransmitDown?) && Enabled(k, s, l) && s' == Step(k, s, l)
    case ServerHears(b, valid, decision) => s' == Brought(k, s, b, valid, decision)
  }

  ghost function ServerGranted(s: System): int {
    Credits(FromClient, s.down.control) + Credits(FromClient, s.toClient)
  }

  ghost predicate IsServerRun(k: Kind, states: seq<System>, moves: seq<ServerMove>) {
    && |states| == |moves| + 1 && IsStart(states[0])
    && forall i :: 0 <= i < |moves| ==> ServerMoves(k, states[i], states[i + 1], moves[i])
  }

  predicate Serving(v: Server) { v.accepted && v.end.fate == Running }

  /** The frames that a call which was being served heard. */
  ghost function ServerHeard(states: seq<System>, moves: seq<ServerMove>, n: nat): seq<Body>
    requires n <= |moves| < |states|
  {
    if n == 0 then []
    else
      var before := ServerHeard(states, moves, n - 1);
      if moves[n - 1].ServerHears? && Serving(states[n - 1].server) then before + [moves[n - 1].b] else before
  }

  ghost predicate ServerCounts(k: Kind, v: Server, granted: int, items: seq<Payload>, ended: bool) {
    var i := v.input;
    && (!v.accepted ==> FreshServer(v) && items == [] && !ended && granted == 0 && (v.end.fate != Running ==> v.end.removed))
    && (v.end.fate == Running ==> !v.end.removed && !v.end.replacing && v.end.final == None)
    && (Serving(v) ==>
          && i.queue.pushed == items && i.expected == |items| && (i.ended <==> ended)
          && i.allowance + i.expected == granted && i.queue.mode == if i.ended then Ended else Live)
    && (v.accepted && v.end.fate != Running ==> i.queue.mode == Failed && v.output.window.closed)
    && i.queue.pushed <= items
    && i.queue.taken <= |i.queue.pushed| <= i.expected && i.regranted <= i.queue.taken
    && 0 <= i.allowance && i.allowance + i.expected <= INITIAL_STREAM_CREDIT + i.regranted
    && (!k.HasInput() ==> i.allowance + i.expected == 0)
  }

  lemma ServerOwnCounts(k: Kind, s: System, l: Label, granted: int, items: seq<Payload>, ended: bool)
    requires ServerCounts(k, s.server, granted, items, ended) && Enabled(k, s, l) && ServerAlone(l)
    ensures var t := TurnOf(k, s, l);
            ServerCounts(k, t.server, granted + CreditOf(FromClient, t.frame), items, ended)
  {
    if l.SFail? || l.SFinish? {
      ServerEndingCounts(k, s, l, granted, items, ended);
    } else if l.STakeUp? {
      ServerTakeUpCounts(k, s, l, granted, items, ended);
    } else if l.SContinue? {
      ServerContinueCounts(k, s, l, granted, items, ended);
    }
  }

  lemma ServerEndingCounts(k: Kind, s: System, l: Label, granted: int, items: seq<Payload>, ended: bool)
    requires ServerCounts(k, s.server, granted, items, ended) && Enabled(k, s, l) && (l.SFail? || l.SFinish?)
    ensures var t := TurnOf(k, s, l);
            ServerCounts(k, t.server, granted + CreditOf(FromClient, t.frame), items, ended)
  {
  }

  lemma ServerTakeUpCounts(k: Kind, s: System, l: Label, granted: int, items: seq<Payload>, ended: bool)
    requires ServerCounts(k, s.server, granted, items, ended) && Enabled(k, s, l) && l.STakeUp?
    ensures var t := TurnOf(k, s, l);
            ServerCounts(k, t.server, granted + CreditOf(FromClient, t.frame), items, ended)
  {
  }

  lemma ServerContinueCounts(k: Kind, s: System, l: Label, granted: int, items: seq<Payload>, ended: bool)
    requires ServerCounts(k, s.server, granted, items, ended) && Enabled(k, s, l) && l.SContinue?
    ensures var t := TurnOf(k, s, l);
            ServerCounts(k, t.server, granted + CreditOf(FromClient, t.frame), items, ended)
  {
  }

  /** The call ends with an error, and the handler with it. */
  ghost predicate Fails(s: System, s': System, fate: Fate) {
    && s'.server.end.fate == fate && s'.server.end.final == Some(Error)
    && s'.server.output.window.closed && s'.server.input.queue.mode == Failed
    && s'.server.input.queue.pushed == s.server.input.queue.pushed
    && s'.down.call == s.down.call + [Error]
  }

  ghost predicate ServerTakes(s: System, s': System, b: Body, valid: bool, fair: bool) {
    var v, v' := s.server, s'.server;
    if !fair then Fails(s, s', Fate.Protocol)
    else
      match b
      case Item(_, _, p) =>
        if valid then
          v'.end == v.end && v'.input.queue.pushed == v.input.queue.pushed + [p] && v'.output == v.output && s'.down == s.down
        else Fails(s, s', Invalid)
      case End(_) =>
        && v'.end == v.end && v'.output == v.output && s'.down == s.down
        && v'.input.queue.mode == Ended && v'.input.queue.pushed == v.input.queue.pushed
      case Window(_, n) =>
        && v'.end == v.end && v'.input == v.input && s'.down == s.down && n > 0
        && v'.output == v.output.(window := v.output.window.Grant(n))
      case Cancel => Fails(s, s', Local)
      case _ => false
  }

  /** The rules for the server: apart from the stream, a client may only cancel. */
  predicate FairToServer(k: Kind, heard: seq<Body>, granted: int, b: Body) {
    match b
    case Cancel => true
    case Open => false
    case Result => false
    case Error => false
    case _ => Fair(FromClient, k.HasInput(), k.HasOutput(), heard, granted, b)
  }

  lemma ServerJudgesFrame(k: Kind, s: System, heard: seq<Body>, granted: int, b: Body, valid: bool, decision: Decision)
    requires ServerCounts(k, s.server, granted, ItemsIn(heard), EndIn(heard)) && Serving(s.server)
    ensures ServerTakes(s, Brought(k, s, b, valid, decision), b, valid, FairToServer(k, heard, granted, b))
  {
  }

  lemma BringingCounts(
    k: Kind, v: Server, granted: int, items: seq<Payload>, ended: bool, b: Body, valid: bool, decision: Decision)
    requires ServerCounts(k, v, granted, items, ended) && Serving(v)
    ensures var t := ServerReceive(k, v, b, valid, decision);
            ServerCounts(k, t.server, granted + CreditOf(FromClient, t.frame), MoreItems(items, b), ended || b.End?)
  {
    if b.Item? {
      BringingItem(k, v, granted, items, ended, b, valid, decision);
    } else {
      BringingOther(k, v, granted, items, ended, b, valid, decision);
    }
  }

  lemma BringingItem(
    k: Kind, v: Server, granted: int, items: seq<Payload>, ended: bool, b: Body, valid: bool, decision: Decision)
    requires ServerCounts(k, v, granted, items, ended) && Serving(v) && b.Item?
    ensures var t := ServerReceive(k, v, b, valid, decision);
            ServerCounts(k, t.server, granted + CreditOf(FromClient, t.frame), items + [b.payload], ended)
  {
  }

  lemma BringingOther(
    k: Kind, v: Server, granted: int, items: seq<Payload>, ended: bool, b: Body, valid: bool, decision: Decision)
    requires ServerCounts(k, v, granted, items, ended) && Serving(v) && !b.Item?
    ensures var t := ServerReceive(k, v, b, valid, decision);
            ServerCounts(k, t.server, granted + CreditOf(FromClient, t.frame), items, ended || b.End?)
  {
  }

  /** What becomes of a frame for a call that is not being served: an open may begin it, all else is dropped. */
  ghost predicate NotServed(s: System, s': System, b: Body, decision: Decision) {
    if !b.Open? || s.server.end.fate != Running then
      && s'.server.end == s.server.end && s'.server.accepted == s.server.accepted && s'.down == s.down
      && s'.server.input.queue.pushed == s.server.input.queue.pushed
    else
      match decision
      case Accept => Serving(s'.server) && ServerGranted(s') == s'.server.input.allowance
      case BadRequest => s'.server.accepted && Fails(s, s', Invalid)
      case Reject =>
        && !s'.server.accepted && s'.server.end.removed && s'.server.end.final == Some(Error)
        && s'.down.call == s.down.call + [Error]
  }

  lemma OpeningCounts(
    k: Kind, v: Server, granted: int, items: seq<Payload>, ended: bool, b: Body, valid: bool, decision: Decision)
    requires ServerCounts(k, v, granted, items, ended) && !v.accepted
    ensures var t := ServerReceive(k, v, b, valid, decision);
            ServerCounts(k, t.server, granted + CreditOf(FromClient, t.frame), items, ended)
  {
  }

  lemma LateBringing(
    k: Kind, v: Server, granted: int, items: seq<Payload>, ended: bool, b: Body, valid: bool, decision: Decision)
    requires ServerCounts(k, v, granted, items, ended) && v.accepted && v.end.fate != Running
    ensures var t := ServerReceive(k, v, b, valid, decision);
            ServerCounts(k, t.server, granted + CreditOf(FromClient, t.frame), items, ended)
  {
  }

  ghost predicate ServerSound(k: Kind, s: System, heard: seq<Body>) {
    ServerCounts(k, s.server, ServerGranted(s), ItemsIn(heard), EndIn(heard)) && forall b <- s.down.call :: !b.Window?
  }

  lemma BroughtTurn(k: Kind, s: System, b: Body, valid: bool, decision: Decision)
    ensures var t, s' := ServerReceive(k, s.server, b, valid, decision), Brought(k, s, b, valid, decision);
            s'.server == t.server && s'.down == Emit(s.down, t.frame) && s'.toClient == s.toClient
  {
  }

  lemma HearingServer(
    k: Kind, v: Server, granted: int, heard: seq<Body>, b: Body, valid: bool, decision: Decision)
    requires ServerCounts(k, v, granted, ItemsIn(heard), EndIn(heard))
    ensures var t := ServerReceive(k, v, b, valid, decision);
            var heard' := if Serving(v) then heard + [b] else heard;
            ServerCounts(k, t.server, granted + CreditOf(FromClient, t.frame), ItemsIn(heard'), EndIn(heard'))
  {
    if Serving(v) {
      HeardSnoc(heard, b);
      BringingCounts(k, v, granted, ItemsIn(heard), EndIn(heard), b, valid, decision);
    } else if v.accepted {
      LateBringing(k, v, granted, ItemsIn(heard), EndIn(heard), b, valid, decision);
    } else {
      OpeningCounts(k, v, granted, ItemsIn(heard), EndIn(heard), b, valid, decision);
    }
  }

  lemma ServerHearsSound(k: Kind, s: System, b: Body, valid: bool, decision: Decision, heard: seq<Body>)
    requires ServerSound(k, s, heard)
    ensures ServerSound(k, Brought(k, s, b, valid, decision), if Serving(s.server) then heard + [b] else heard)
  {
    BroughtTurn(k, s, b, valid, decision);
    EmitCredits(FromClient, s.down, ServerReceive(k, s.server, b, valid, decision).frame);
    HearingServer(k, s.server, ServerGranted(s), heard, b, valid, decision);
  }

  lemma ServerOwnSound(k: Kind, s: System, l: Label, heard: seq<Body>)
    requires ServerSound(k, s, heard) && Enabled(k, s, l) && (ServerAlone(l) || l.TransmitDown?)
    ensures ServerSound(k, Step(k, s, l), heard)
  {
    if l.TransmitDown? {
      TransmitCredits(FromClient, s.down, s.toClient);
    } else {
      ServerOwnCounts(k, s, l, ServerGranted(s), ItemsIn(heard), EndIn(heard));
      EmitCredits(FromClient, s.down, TurnOf(k, s, l).frame);
      TurnOfStep(k, s, l);
    }
  }

  lemma ServerMoveSound(k: Kind, s: System, s': System, move: ServerMove, heard: seq<Body>)
    requires ServerSound(k, s, heard) && ServerMoves(k, s, s', move)
    ensures ServerSound(k, s', if move.ServerHears? && Serving(s.server) then heard + [move.b] else heard)
  {
    match move
    case ServerHears(b, valid, decision) => ServerHearsSound(k, s, b, valid, decision, heard);
    case ServerOwn(l) => ServerOwnSound(k, s, l, heard);
  }

  lemma ServerStartSound(k: Kind, s: System, heard: seq<Body>)
    requires IsStart(s) && |heard| == 0
    ensures ServerSound(k, s, heard)
  {
  }

  lemma NextServerSound(k: Kind, states: seq<System>, moves: seq<ServerMove>, n: nat)
    requires IsServerRun(k, states, moves) && n < |moves|
    ensures ServerCarries(k, states, moves, n)
  {
    forall heard | ServerSound(k, states[n], heard)
      ensures ServerSound(k, states[n + 1], if moves[n].ServerHears? && Serving(states[n].server) then heard + [moves[n].b] else heard)
    {
      ServerMoveSound(k, states[n], states[n + 1], moves[n], heard);
    }
  }

  /** What is sound before the move is sound after it. */
  ghost predicate ServerCarries(k: Kind, states: seq<System>, moves: seq<ServerMove>, i: nat)
    requires i < |moves| < |states|
  {
    forall heard :: ServerSound(k, states[i], heard) ==>
      ServerSound(k, states[i + 1], if moves[i].ServerHears? && Serving(states[i].server) then heard + [moves[i].b] else heard)
  }

  lemma {:induction false} ServerChain(k: Kind, states: seq<System>, moves: seq<ServerMove>, n: nat)
    requires n <= |moves| < |states| && ServerSound(k, states[0], ServerHeard(states, moves, 0))
    requires forall i :: 0 <= i < |moves| ==> ServerCarries(k, states, moves, i)
    ensures ServerSound(k, states[n], ServerHeard(states, moves, n))
  {
    if n > 0 {
      ServerChain(k, states, moves, n - 1);
      assert ServerCarries(k, states, moves, n - 1);
    }
  }

  lemma ServerRunSound(k: Kind, states: seq<System>, moves: seq<ServerMove>, n: nat)
    requires IsServerRun(k, states, moves) && n <= |moves|
    ensures ServerSound(k, states[n], ServerHeard(states, moves, n))
  {
    ServerStartSound(k, states[0], ServerHeard(states, moves, 0));
    forall i | 0 <= i < |moves| ensures ServerCarries(k, states, moves, i) {
      NextServerSound(k, states, moves, i);
    }
    ServerChain(k, states, moves, n);
  }

  /** The same for the server, and what it does with frames of a call that it does not serve. */
  lemma ServerJudges(k: Kind, states: seq<System>, moves: seq<ServerMove>, n: nat)
    requires IsServerRun(k, states, moves) && n < |moves| && moves[n].ServerHears?
    ensures var s, s', b := states[n], states[n + 1], moves[n].b;
            var fair := FairToServer(k, ServerHeard(states, moves, n), ServerGranted(s), b);
            if Serving(s.server) then
              ServerTakes(s, s', b, moves[n].valid, fair) && (s'.server.end.fate == Fate.Protocol <==> !fair)
            else NotServed(s, s', b, moves[n].decision)
  {
    ServerRunSound(k, states, moves, n);
    var heard, granted := ServerHeard(states, moves, n), ServerGranted(states[n]);
    if Serving(states[n].server) {
      ServerJudgesFrame(k, states[n], heard, granted, moves[n].b, moves[n].valid, moves[n].decision);
    } else {
      OpeningJudged(k, states[n], heard, moves[n].b, moves[n].valid, moves[n].decision);
    }
  }

  lemma OpeningJudged(k: Kind, s: System, heard: seq<Body>, b: Body, valid: bool, decision: Decision)
    requires ServerCounts(k, s.server, ServerGranted(s), ItemsIn(heard), EndIn(heard)) && !Serving(s.server)
    ensures NotServed(s, Brought(k, s, b, valid, decision), b, decision)
  {
    if s.server.accepted || s.server.end.fate != Running {
      NotServedAnyMore(k, s, heard, b, valid, decision);
    } else {
      EmitCredits(FromClient, s.down, ServerReceive(k, s.server, b, valid, decision).frame);
    }
  }

  lemma NotServedAnyMore(k: Kind, s: System, heard: seq<Body>, b: Body, valid: bool, decision: Decision)
    requires ServerCounts(k, s.server, ServerGranted(s), ItemsIn(heard), EndIn(heard)) && s.server.end.fate != Running
    ensures NotServed(s, Brought(k, s, b, valid, decision), b, decision)
  {
  }

  lemma ServerIsSafe(k: Kind, states: seq<System>, moves: seq<ServerMove>, n: nat)
    requires IsServerRun(k, states, moves) && n <= |moves|
    ensures Held(states[n].server.input) <= INITIAL_STREAM_CREDIT
    ensures Taken(states[n].server.input.queue) <= ItemsIn(ServerHeard(states, moves, n))
  {
    ServerRunSound(k, states, moves, n);
  }
}
