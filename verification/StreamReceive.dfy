/** The protocol's invariant is kept when a half receives a frame. */
module StreamReceive {

  import opened Wrappers
  import opened Protocol
  import opened Flow
  import opened Stream
  import opened StreamInvariant

  // --- Receiving -----------------------------------------------------------------------------

  /** The head of a wire is the log's next data frame, or a control frame. */
  lemma WireHead(log: seq<Body>, sent: nat, got: nat, wire: seq<Body>, cut: bool)
    requires WireOk(log, sent, got, wire, cut) && wire != []
    ensures if IsControlBody(wire[0]) then WireOk(log, sent, got, wire[1..], cut)
            else got < |log| && wire[0] == log[got] && WireOk(log, sent, got + 1, wire[1..], cut)
  {
    if !IsControlBody(wire[0]) {
      assert Data(wire) == [wire[0]] + Data(wire[1..]);
      assert Data(wire)[0] == log[got];
      assert log[got..got + |Data(wire)|][1..] == log[got + 1..got + |Data(wire)|];
    }
  }

  /** What the server has to show after taking frame `b` from its wire. */
  ghost predicate ServerTook(k: Kind, s: System, b: Body, t: ServerTurn)
    requires s.toServer != []
  {
    var down' := Emit(s.down, t.frame);
    var got' := if IsControlBody(b) then s.serverGot else s.serverGot + 1;
    && ServerSide(k, t.server, down', s.cut)
    && s.down.log <= down'.log && down'.sent == s.down.sent
    && ServerReads(s.client.input.produced, s.client.input.closed, t.server, got')
    && ClientReads(k, t.server, s.client, s.clientGot)
    && OutputCredit(s.client, t.server, s.up.control, s.toServer[1..], s.cut)
    && InputCredit(s.client, t.server, down'.control, s.toClient, s.cut)
    && t.server.end.fate != Fate.Protocol
  }

  lemma ServerTookWires(k: Kind, s: System, t: ServerTurn)
    requires WiresOk(k, s) && s.toServer != []
    requires s.down.log <= Emit(s.down, t.frame).log && Emit(s.down, t.frame).sent == s.down.sent
    ensures WiresOk(k, ServerGets(s, t))
  {
    WireHead(s.up.log, s.up.sent, s.serverGot, s.toServer, s.cut);
    LogGrows(s.down.log, Emit(s.down, t.frame).log, s.down.sent, s.clientGot, s.toClient, s.cut);
    assert forall b <- s.toServer[1..] :: b in s.toServer;
  }

  lemma ServerTookInv(k: Kind, s: System, t: ServerTurn)
    requires Inv(k, s) && s.toServer != [] && ServerTook(k, s, s.toServer[0], t)
    ensures Inv(k, ServerGets(s, t))
  {
    ServerTookWires(k, s, t);
  }

  lemma UpLogAt(produced: seq<Payload>, closed: bool, i: nat)
    requires i < |UpLog(produced, closed)|
    ensures UpLog(produced, closed)[i] ==
            if i == 0 then Open
            else if i <= |produced| then Item(FromClient, i - 1, produced[i - 1])
            else End(FromClient)
    ensures i > |produced| ==> closed && i == |produced| + 1
  {
  }

  lemma {:induction false} CreditsPositive(k: Kind, frames: seq<Body>)
    requires forall b <- frames :: IsControlBody(b) ==> UpControl(k, b) || DownControl(k, b)
    ensures Credits(FromClient, frames) >= 0 && Credits(FromServer, frames) >= 0
  {
    if frames != [] {
      assert frames[0] in frames;
      CreditsPositive(k, frames[1..]);
    }
  }

  /** The part of the invariant that a frame taken by the server concerns. */
  ghost predicate AroundServer(k: Kind, s: System) {
    && ServerSide(k, s.server, s.down, s.cut)
    && ServerReads(s.client.input.produced, s.client.input.closed, s.server, s.serverGot)
    && ClientReads(k, s.server, s.client, s.clientGot)
    && OutputCredit(s.client, s.server, s.up.control, s.toServer, s.cut)
    && InputCredit(s.client, s.server, s.down.control, s.toClient, s.cut)
    && NoFault(s.client, s.server)
  }

  ghost predicate LegalKind(k: Kind, b: Body) {
    || (b.Window? && b.direction == FromServer && b.credit > 0 && k.HasOutput())
    || (b.Item? && b.direction == FromClient)
    || b == End(FromClient)
  }

  /**
   * What can come next from the client: its data frames are exactly the ones
   * the server expects, within the credit it has left.
   */
  ghost predicate Expected(k: Kind, s: System)
    requires s.toServer != []
  {
    var b, v, produced := s.toServer[0], s.server, s.client.input.produced;
    && (if s.serverGot == 0 then b == Open else b == Cancel || LegalKind(k, b))
    && (v.accepted && v.end.fate == Running ==>
          && (b.Item? || b.End? ==> k.HasInput() && !v.input.ended)
          && (b.Item? ==> v.input.allowance > 0 && b.sequence == v.input.expected < |produced|
                          && b.payload == produced[b.sequence])
          && (b.End? ==> s.client.input.closed && v.input.expected == |produced|))
  }

  lemma ServerExpects(k: Kind, s: System)
    requires Inv(k, s) && s.toServer != []
    ensures AroundServer(k, s) && Expected(k, s)
  {
    assert s.toServer[0] in s.toServer;
    WireHead(s.up.log, s.up.sent, s.serverGot, s.toServer, s.cut);
    if !IsControlBody(s.toServer[0]) { UpLogAt(s.client.input.produced, s.client.input.closed, s.serverGot); }
    CreditsPositive(k, s.toClient);
    CreditsPositive(k, s.down.control);
  }

  /** Nothing has been received or produced for the call yet. */
  ghost predicate Untouched(v: Server) {
    && v.input.queue.pushed == [] && v.input.expected == 0 && !v.input.ended
    && v.output.window.credit + v.output.window.served == 0 && v.output.produced == []
    && !v.output.closed && v.end.final != Some(Result)
  }

  lemma ServerOpenSide(k: Kind, v: Server, down: Lane, cut: bool, decision: Decision)
    requires ServerSide(k, v, down, cut) && !v.accepted && v.end.fate == Running
    ensures var t := ServerOpen(k, v, decision);
            var down' := Emit(down, t.frame);
            && ServerSide(k, t.server, down', cut)
            && down.log <= down'.log && down'.sent == down.sent
            && t.server.end.fate != Fate.Protocol
            && (t.server.accepted || t.server.end.fate != Running)
            && Untouched(t.server)
            && Credits(FromClient, down'.control) == t.server.input.allowance
  {
    var t := ServerOpen(k, v, decision);
    if decision == Accept {
      if k.HasInput() {
      }
    } else {
      assert DownLog([], false, Some(Error)) == down.log + [Error];
    }
  }

  /** Taking a data frame leaves the credit on its way as it was. */
  lemma OpenOutputCredit(c: Client, v: Server, v': Server, up: seq<Body>, wire: seq<Body>, cut: bool)
    requires Untouched(v) && v.end.fate == Running
    requires OutputCredit(c, v, up, wire, cut) && wire != [] && !wire[0].Window? && Untouched(v')
    ensures OutputCredit(c, v', up, wire[1..], cut)
  {
  }

  lemma OpenInputCredit(c: Client, v: Server, v': Server, down: seq<Body>, down': seq<Body>, wire: seq<Body>, cut: bool)
    requires Untouched(v) && InputCredit(c, v, down, wire, cut) && v.input.allowance == 0
    requires Untouched(v') && Credits(FromClient, down) == 0 && Credits(FromClient, down') == v'.input.allowance
    ensures InputCredit(c, v', down', wire, cut)
  {
  }

  lemma OpenReads(k: Kind, c: Client, v: Server, v': Server, clientGot: nat)
    requires Untouched(v) && ClientReads(k, v, c, clientGot)
    requires v'.accepted || v'.end.fate != Running
    requires Untouched(v')
    ensures ClientReads(k, v', c, clientGot) && ServerReads(c.input.produced, c.input.closed, v', 1)
  {
  }

  lemma ServerTakesOpen(k: Kind, s: System, decision: Decision)
    requires AroundServer(k, s) && s.toServer != [] && s.toServer[0] == Open && !s.server.accepted && s.server.end.fate == Running
    ensures ServerTook(k, s, Open, ServerOpen(k, s.server, decision))
  {
    ServerOpenSide(k, s.server, s.down, s.cut, decision);
    var t := ServerOpen(k, s.server, decision);
    OpenOutputCredit(s.client, s.server, t.server, s.up.control, s.toServer, s.cut);
    OpenInputCredit(s.client, s.server, t.server, s.down.control, Emit(s.down, t.frame).control, s.toClient, s.cut);
    OpenReads(k, s.client, s.server, t.server, s.clientGot);
  }

  lemma ServerItemSide(k: Kind, v: Server, down: Lane, cut: bool, n: nat, p: Payload, produced: seq<Payload>, closed: bool, got: nat)
    requires ServerSide(k, v, down, cut) && v.accepted && v.end.fate == Running
    requires k.HasInput() && !v.input.ended && v.input.allowance > 0 && n == v.input.expected < |produced| && p == produced[n]
    requires ServerReads(produced, closed, v, got)
    ensures var v' := ServerItem(k, v, FromClient, n, p, true).server;
            ServerSide(k, v', down, cut) && ServerReads(produced, closed, v', got + 1)
  {
    assert v.input.queue.pushed == produced[..n];
    assert produced[..n] + [p] == produced[..n + 1];
  }

  /** A data frame taken leaves the credit that is on its way as it was. */
  lemma DataCredit(c: Client, v: Server, v': Server, up: seq<Body>, wire: seq<Body>, cut: bool)
    requires OutputCredit(c, v, up, wire, cut) && wire != [] && !wire[0].Window?
    requires v'.output.window == v.output.window && v'.end == v.end
    ensures OutputCredit(c, v', up, wire[1..], cut)
  {
  }

  /** The server's view of its peer is all that changes. */
  lemma InputOnly(k: Kind, c: Client, v: Server, v': Server, down: seq<Body>, wire: seq<Body>, cut: bool, clientGot: nat)
    requires ClientReads(k, v, c, clientGot) && InputCredit(c, v, down, wire, cut)
    requires v' == v.(input := v'.input)
    requires v'.input.allowance + v'.input.expected == v.input.allowance + v.input.expected
    ensures ClientReads(k, v', c, clientGot) && InputCredit(c, v', down, wire, cut)
  {
  }

  lemma ServerTakesItem(k: Kind, s: System)
    requires AroundServer(k, s) && s.toServer != [] && Expected(k, s) && s.toServer[0].Item?
    requires s.server.accepted && s.server.end.fate == Running
    ensures ServerTook(k, s, s.toServer[0],
                       ServerItem(k, s.server, FromClient, s.toServer[0].sequence, s.toServer[0].payload, true))
  {
    var v, c, n, p := s.server, s.client, s.toServer[0].sequence, s.toServer[0].payload;
    ServerItemSide(k, v, s.down, s.cut, n, p, c.input.produced, c.input.closed, s.serverGot);
    var v' := ServerItem(k, v, FromClient, n, p, true).server;
    DataCredit(c, v, v', s.up.control, s.toServer, s.cut);
    InputOnly(k, c, v, v', s.down.control, s.toClient, s.cut, s.clientGot);
  }

  lemma ServerEndSide(k: Kind, v: Server, down: Lane, cut: bool, produced: seq<Payload>, got: nat)
    requires ServerSide(k, v, down, cut) && v.accepted && v.end.fate == Running && k.HasInput() && !v.input.ended
    requires ServerReads(produced, true, v, got) && v.input.expected == |produced|
    ensures var v' := ServerEnd(k, v, FromClient).server;
            ServerSide(k, v', down, cut) && ServerReads(produced, true, v', got + 1)
  {
  }

  lemma ServerTakesEnd(k: Kind, s: System)
    requires AroundServer(k, s) && s.toServer != [] && Expected(k, s) && s.toServer[0].End?
    requires s.server.accepted && s.server.end.fate == Running
    ensures ServerTook(k, s, s.toServer[0], ServerEnd(k, s.server, FromClient))
  {
    var v, c := s.server, s.client;
    ServerEndSide(k, v, s.down, s.cut, c.input.produced, s.serverGot);
    var v' := ServerEnd(k, v, FromClient).server;
    DataCredit(c, v, v', s.up.control, s.toServer, s.cut);
    InputOnly(k, c, v, v', s.down.control, s.toClient, s.cut, s.clientGot);
  }

  lemma GrantedCredit(c: Client, v: Server, v': Server, up: seq<Body>, wire: seq<Body>, cut: bool)
    requires OutputCredit(c, v, up, wire, cut) && wire != [] && wire[0].Window? && wire[0].direction == FromServer
    requires v'.end == v.end
    requires v'.output.window.credit + v'.output.window.served
          == v.output.window.credit + v.output.window.served + wire[0].credit
    ensures OutputCredit(c, v', up, wire[1..], cut)
  {
  }

  lemma ServerWindowSide(k: Kind, v: Server, down: Lane, cut: bool, n: int)
    requires ServerSide(k, v, down, cut) && v.accepted && v.end.fate == Running && k.HasOutput() && n > 0
    ensures var v' := ServerWindow(k, v, FromServer, n).server;
            && ServerSide(k, v', down, cut) && v' == v.(output := v.output.(window := v'.output.window))
            && v'.output.window.credit + v'.output.window.served == v.output.window.credit + v.output.window.served + n
  {
  }

  lemma ServerTakesWindow(k: Kind, s: System)
    requires AroundServer(k, s) && s.toServer != [] && Expected(k, s) && s.toServer[0].Window?
    requires s.server.accepted && s.server.end.fate == Running
    ensures ServerTook(k, s, s.toServer[0], ServerWindow(k, s.server, FromServer, s.toServer[0].credit))
  {
    var n := s.toServer[0].credit;
    ServerWindowSide(k, s.server, s.down, s.cut, n);
    GrantedCredit(s.client, s.server, ServerWindow(k, s.server, FromServer, n).server, s.up.control, s.toServer, s.cut);
  }

  /** The server ends the call over a frame: an invalid item, or a cancel. */
  lemma ServerRefuses(k: Kind, s: System, fate: Fate)
    requires AroundServer(k, s) && s.toServer != [] && !s.toServer[0].Window? && s.serverGot > 0
    requires s.server.accepted && s.server.end.fate == Running && (fate == Local || fate == Invalid)
    ensures ServerTook(k, s, s.toServer[0], ServerFail(s.server, fate, false))
  {
    var v, c, t := s.server, s.client, ServerFail(s.server, fate, false);
    var down' := Emit(s.down, t.frame);
    ServerFinishGood(k, v, s.down, s.cut, Error, fate, false);
    OwnServerReads(k, c, v, t.server, s.down, down', s.serverGot, s.clientGot);
    OwnServerCredit(c, v, t.server, s.up.control, s.down, down', s.toServer, s.toClient, s.cut);
  }

  /** What a call that has ended, but is still known, does with late frames. */
  lemma ServerLateItemGood(k: Kind, v: Server, down: Lane, cut: bool, n: nat, p: Payload, valid: bool)
    requires ServerSide(k, v, down, cut) && v.accepted && v.end.fate != Running
    ensures ServerSide(k, ServerItem(k, v, FromClient, n, p, valid).server, down, cut)
  {
  }

  lemma ServerLateEndGood(k: Kind, v: Server, down: Lane, cut: bool)
    requires ServerSide(k, v, down, cut) && v.accepted && v.end.fate != Running
    ensures ServerSide(k, ServerEnd(k, v, FromClient).server, down, cut)
  {
  }

  lemma ServerLateWindowGood(k: Kind, v: Server, down: Lane, cut: bool, credit: int)
    requires ServerSide(k, v, down, cut) && v.accepted && v.end.fate != Running
    ensures ServerSide(k, ServerWindow(k, v, FromServer, credit).server, down, cut)
  {
  }

  lemma LateCredit(c: Client, v: Server, v': Server, up: seq<Body>, wire: seq<Body>, cut: bool)
    requires OutputCredit(c, v, up, wire, cut) && wire != [] && v.end.fate != Running
    requires wire[0].Window? ==> wire[0].credit > 0
    requires v'.output.window == v.output.window && v'.end.fate == v.end.fate
    ensures OutputCredit(c, v', up, wire[1..], cut)
  {
  }

  /** After its end a call is only a counter of what still arrives. */
  lemma LateReads(k: Kind, c: Client, v: Server, v': Server, serverGot: nat, got': nat, clientGot: nat)
    requires ServerReads(c.input.produced, c.input.closed, v, serverGot) && ClientReads(k, v, c, clientGot)
    requires v.end.fate != Running && got' >= serverGot
    requires v' == v.(input := v'.input) && v'.input.queue.pushed == v.input.queue.pushed
    ensures ServerReads(c.input.produced, c.input.closed, v', got') && ClientReads(k, v', c, clientGot)
  {
  }

  lemma LateTurn(k: Kind, v: Server, b: Body, valid: bool, decision: Decision)
    requires v.end.fate != Running && (v.accepted ==> v.output.window.closed && v.input.queue.mode == Failed)
    requires !v.accepted ==> v.end.removed
    ensures var t := ServerReceive(k, v, b, valid, decision);
            && t.frame == None
            && t.server.input.allowance + t.server.input.expected == v.input.allowance + v.input.expected
            && t.server == v.(input := t.server.input) && t.server.input.queue.pushed == v.input.queue.pushed
  {
  }

  lemma LateSide(k: Kind, v: Server, down: Lane, cut: bool, b: Body, valid: bool, decision: Decision)
    requires ServerSide(k, v, down, cut) && v.end.fate != Running
    requires b.Item? || b.End? || b.Window? ==> LegalKind(k, b)
    ensures ServerSide(k, ServerReceive(k, v, b, valid, decision).server, down, cut)
  {
    if !v.end.removed && v.accepted {
      match b
      case Item(_, n, p) => ServerLateItemGood(k, v, down, cut, n, p, valid);
      case End(_) => ServerLateEndGood(k, v, down, cut);
      case Window(_, n) => ServerLateWindowGood(k, v, down, cut, n);
      case _ =>
    }
  }

  lemma LateTook(k: Kind, s: System, t: ServerTurn)
    requires AroundServer(k, s) && s.toServer != [] && s.server.end.fate != Running && Expected(k, s)
    requires t.frame == None && ServerSide(k, t.server, s.down, s.cut)
    requires t.server == s.server.(input := t.server.input)
    requires t.server.input.queue.pushed == s.server.input.queue.pushed
    requires t.server.input.allowance + t.server.input.expected == s.server.input.allowance + s.server.input.expected
    ensures ServerTook(k, s, s.toServer[0], t)
  {
    LateCredit(s.client, s.server, t.server, s.up.control, s.toServer, s.cut);
    LateReads(k, s.client, s.server, t.server, s.serverGot,
              if IsControlBody(s.toServer[0]) then s.serverGot else s.serverGot + 1, s.clientGot);
  }

  lemma ServerTakesLate(k: Kind, s: System, valid: bool, decision: Decision)
    requires AroundServer(k, s) && s.toServer != [] && s.server.end.fate != Running && Expected(k, s)
    ensures ServerTook(k, s, s.toServer[0], ServerReceive(k, s.server, s.toServer[0], valid, decision))
  {
    LateTurn(k, s.server, s.toServer[0], valid, decision);
    LateSide(k, s.server, s.down, s.cut, s.toServer[0], valid, decision);
    LateTook(k, s, ServerReceive(k, s.server, s.toServer[0], valid, decision));
  }

  lemma ServerTakesFrame(k: Kind, s: System, valid: bool, decision: Decision)
    requires AroundServer(k, s) && s.toServer != [] && Expected(k, s)
    requires s.server.accepted && s.server.end.fate == Running
    ensures ServerTook(k, s, s.toServer[0], ServerReceive(k, s.server, s.toServer[0], valid, decision))
  {
    match s.toServer[0]
    case Item(_, _, _) => if valid { ServerTakesItem(k, s); } else { ServerRefuses(k, s, Invalid); }
    case End(_) => ServerTakesEnd(k, s);
    case Window(_, _) => ServerTakesWindow(k, s);
    case Cancel => ServerRefuses(k, s, Local);
    case _ =>
  }

  lemma ServerTakes(k: Kind, s: System, valid: bool, decision: Decision)
    requires AroundServer(k, s) && s.toServer != [] && Expected(k, s)
    ensures ServerTook(k, s, s.toServer[0], ServerReceive(k, s.server, s.toServer[0], valid, decision))
  {
    if s.server.end.fate != Running {
      ServerTakesLate(k, s, valid, decision);
    } else if !s.server.accepted {
      ServerTakesOpen(k, s, decision);
    } else {
      ServerTakesFrame(k, s, valid, decision);
    }
  }

  lemma SReceiveInv(k: Kind, s: System, valid: bool, decision: Decision)
    requires Inv(k, s) && s.toServer != []
    ensures Inv(k, ServerGets(s, ServerReceive(k, s.server, s.toServer[0], valid, decision)))
  {
    ServerExpects(k, s);
    ServerTakes(k, s, valid, decision);
    ServerTookInv(k, s, ServerReceive(k, s.server, s.toServer[0], valid, decision));
  }

  // --- The client receives ----------------------------------------------------------------

  ghost predicate AroundClient(k: Kind, s: System) {
    && ClientOk(k, s.client) && UpOk(k, s.client, s.up)
    && ServerReads(s.client.input.produced, s.client.input.closed, s.server, s.serverGot)
    && ClientReads(k, s.server, s.client, s.clientGot)
    && OutputCredit(s.client, s.server, s.up.control, s.toServer, s.cut)
    && InputCredit(s.client, s.server, s.down.control, s.toClient, s.cut)
    && s.client.fate != Fate.Protocol
  }

  /** What the client has to show after taking a frame from its wire. */
  ghost predicate ClientTook(k: Kind, s: System, c': Client)
    requires s.toClient != []
  {
    var got' := if IsControlBody(s.toClient[0]) then s.clientGot else s.clientGot + 1;
    && ClientOk(k, c') && UpOk(k, c', s.up)
    && c'.input.produced == s.client.input.produced && c'.input.closed == s.client.input.closed
    && ClientReads(k, s.server, c', got')
    && OutputCredit(c', s.server, s.up.control, s.toServer, s.cut)
    && InputCredit(c', s.server, s.down.control, s.toClient[1..], s.cut)
    && c'.fate != Fate.Protocol
  }

  lemma ClientTookWires(k: Kind, s: System, c': Client)
    requires WiresOk(k, s) && s.toClient != []
    ensures WiresOk(k, ClientGets(s, c'))
  {
    WireHead(s.down.log, s.down.sent, s.clientGot, s.toClient, s.cut);
    assert forall b <- s.toClient[1..] :: b in s.toClient;
  }

  lemma ClientTookInv(k: Kind, s: System, c': Client)
    requires Inv(k, s) && s.toClient != [] && ClientTook(k, s, c')
    ensures Inv(k, ClientGets(s, c'))
  {
    ClientTookWires(k, s, c');
  }

  /** What can come next from the server, and where in its log it stands. */
  ghost predicate LegalDown(k: Kind, s: System)
    requires s.toClient != []
  {
    var b, v, n := s.toClient[0], s.server, |s.server.output.produced|;
    || DownControl(k, b)
    || (s.clientGot < n && b == Item(FromServer, s.clientGot, v.output.produced[s.clientGot]) && k.HasOutput())
    || (s.clientGot == n && v.output.closed && b == End(FromServer) && k.HasOutput())
    || (s.clientGot == n + (if v.output.closed then 1 else 0) && v.end.final == Some(b)
        && (b == Error || (b == Result && (k.HasOutput() ==> v.output.closed))))
  }

  lemma DownHead(k: Kind, s: System)
    requires Inv(k, s) && s.toClient != []
    ensures LegalDown(k, s)
  {
    assert s.toClient[0] in s.toClient;
    WireHead(s.down.log, s.down.sent, s.clientGot, s.toClient, s.cut);
  }

  lemma ItemCredit(c: Client, v: Server, control: seq<Body>, wire: seq<Body>, cut: bool, k: Kind)
    requires OutputCredit(c, v, control, wire, cut) && |v.output.produced| <= v.output.window.served
    requires forall b <- control :: IsControlBody(b) ==> UpControl(k, b)
    requires forall b <- wire :: IsControlBody(b) ==> UpControl(k, b)
    requires c.output.expected < |v.output.produced|
    ensures c.output.allowance > 0
  {
    CreditsPositive(k, control);
    CreditsPositive(k, wire);
  }

  lemma ClientTakesItem(k: Kind, s: System, v: Payload, valid: bool)
    requires AroundClient(k, s) && s.client.fate == Running && s.toClient != [] && k.HasOutput()
    requires s.clientGot < |s.server.output.produced| && s.server.output.produced[s.clientGot] == v
    requires s.client.output.allowance > 0
    requires s.toClient[0] == Item(FromServer, s.clientGot, v)
    ensures ClientTook(k, s, ClientReceive(k, s.client, s.toClient[0], valid))
  {
    var p, n := s.server.output.produced, s.clientGot;
    assert !s.client.output.ended && n == s.client.output.expected;
    assert s.client.output.queue.pushed == p[..n];
    assert p[..n] + [v] == p[..n + 1];
  }

  lemma ClientTakesEnd(k: Kind, s: System)
    requires AroundClient(k, s) && s.client.fate == Running && s.toClient != [] && k.HasOutput()
    requires s.clientGot == |s.server.output.produced| && s.server.output.closed
    requires s.toClient[0] == End(FromServer)
    ensures ClientTook(k, s, ClientReceive(k, s.client, s.toClient[0], true))
  {
  }

  lemma ClientTakesWindow(k: Kind, s: System)
    requires AroundClient(k, s) && s.client.fate == Running && s.toClient != [] && DownControl(k, s.toClient[0])
    ensures ClientTook(k, s, ClientReceive(k, s.client, s.toClient[0], true))
  {
  }

  lemma ClientTakesFinal(k: Kind, s: System)
    requires AroundClient(k, s) && s.client.fate == Running && s.toClient != []
    requires s.clientGot == |s.server.output.produced| + (if s.server.output.closed then 1 else 0)
    requires s.server.end.final == Some(s.toClient[0])
    requires s.toClient[0] == Error || (s.toClient[0] == Result && (k.HasOutput() ==> s.server.output.closed))
    ensures ClientTook(k, s, ClientReceive(k, s.client, s.toClient[0], true))
  {
  }

  lemma ClientTakesLate(k: Kind, s: System, valid: bool)
    requires AroundClient(k, s) && s.client.fate != Running && s.toClient != [] && LegalDown(k, s)
    ensures ClientReceive(k, s.client, s.toClient[0], valid) == s.client
    ensures ClientTook(k, s, s.client)
  {
  }

  lemma ClientTakesFrame(k: Kind, s: System, valid: bool)
    requires AroundClient(k, s) && s.client.fate == Running && s.toClient != [] && LegalDown(k, s)
    requires s.client.output.expected < |s.server.output.produced| ==> s.client.output.allowance > 0
    ensures ClientTook(k, s, ClientReceive(k, s.client, s.toClient[0], valid))
  {
    match s.toClient[0]
    case Item(_, _, v) => ClientTakesItem(k, s, v, valid);
    case End(_) => ClientTakesEnd(k, s);
    case Window(_, _) => ClientTakesWindow(k, s);
    case Result => ClientTakesFinal(k, s);
    case Error => ClientTakesFinal(k, s);
    case Open =>
    case Cancel =>
  }

  lemma ClientTakes(k: Kind, s: System, valid: bool)
    requires AroundClient(k, s) && s.toClient != [] && LegalDown(k, s)
    requires s.client.fate == Running && s.client.output.expected < |s.server.output.produced| ==> s.client.output.allowance > 0
    ensures ClientTook(k, s, ClientReceive(k, s.client, s.toClient[0], valid))
  {
    if s.client.fate != Running { ClientTakesLate(k, s, valid); } else { ClientTakesFrame(k, s, valid); }
  }

  lemma ClientExpects(k: Kind, s: System)
    requires Inv(k, s) && s.toClient != []
    ensures AroundClient(k, s) && LegalDown(k, s)
    ensures s.client.output.expected < |s.server.output.produced| ==> s.client.output.allowance > 0
  {
    DownHead(k, s);
    if s.client.output.expected < |s.server.output.produced| {
      ItemCredit(s.client, s.server, s.up.control, s.toServer, s.cut, k);
    }
  }

  lemma CReceiveInv(k: Kind, s: System, valid: bool)
    requires Inv(k, s) && s.toClient != []
    ensures Inv(k, ClientGets(s, ClientReceive(k, s.client, s.toClient[0], valid)))
  {
    ClientExpects(k, s);
    ClientTakes(k, s, valid);
    ClientTookInv(k, s, ClientReceive(k, s.client, s.toClient[0], valid));
  }
}
