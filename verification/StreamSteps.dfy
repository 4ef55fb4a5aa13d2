/**
 * The protocol's invariant is kept by the writers and by the loss of the
 * connection, and so by every step.
 */
module StreamSteps {

  import opened Wrappers
  import opened Protocol
  import opened Stream
  import opened StreamInvariant
  import opened StreamReceive

  // --- The writers and the wires -------------------------------------------------------------

  lemma TransmittedWire(l: Lane, got: nat, wire: seq<Body>)
    requires WireOk(l.log, l.sent, got, wire, false) && CanTransmit(l)
    requires l.control == [] ==> l.call == l.log[l.sent..]
    requires forall b <- l.control :: IsControlBody(b)
    requires forall b <- l.call :: !IsControlBody(b)
    ensures WireOk(l.log, Transmitted(l).sent, got, wire + [NextBody(l)], false)
  {
    DataSnoc(wire, NextBody(l));
    if l.control == [] {
      assert l.call[0] == l.log[l.sent];
    } else {
      assert l.control[0] in l.control;
    }
  }

  lemma TransmittedCredit(d: Direction, l: Lane, wire: seq<Body>)
    requires CanTransmit(l) && forall b <- l.call :: !IsControlBody(b)
    ensures Credits(d, wire + [NextBody(l)]) + Credits(d, Transmitted(l).control)
         == Credits(d, wire) + Credits(d, l.control)
  {
    CreditsSnoc(d, wire, NextBody(l));
    if l.control == [] {
      assert l.call[0] in l.call;
    }
  }

  lemma LogData(k: Kind, s: System)
    requires UpOk(k, s.client, s.up) && DownOk(k, s.server, s.down) && EndOk(k, s.server, s.down, s.cut)
    ensures forall b <- s.up.log :: !IsControlBody(b)
    ensures forall b <- s.down.log :: !IsControlBody(b)
  {
  }

  lemma TransmittedUp(k: Kind, c: Client, up: Lane)
    requires UpOk(k, c, up) && CanTransmit(up)
    ensures UpOk(k, c, Transmitted(up))
    ensures IsControlBody(NextBody(up)) ==> UpControl(k, NextBody(up)) && up.sent >= 1
    ensures up.sent == 0 ==> NextBody(up) == Open
  {
    if up.control != [] {
      assert forall x <- up.control[1..] :: x in up.control;
      assert NextBody(up) in up.control;
    } else {
      assert up.call[1..] == up.log[up.sent + 1..];
    }
  }

  lemma TransmittedDown(k: Kind, v: Server, down: Lane)
    requires DownOk(k, v, down) && CanTransmit(down)
    requires forall b <- down.log :: !IsControlBody(b)
    ensures DownOk(k, v, Transmitted(down))
    ensures IsControlBody(NextBody(down)) ==> DownControl(k, NextBody(down))
  {
    if down.control != [] {
      assert forall x <- down.control[1..] :: x in down.control;
      assert NextBody(down) in down.control;
    } else {
      assert down.call[1..] == down.log[down.sent + 1..];
      assert NextBody(down) in down.log;
    }
  }

  lemma TransmitUpWires(k: Kind, s: System)
    requires UpOk(k, s.client, s.up) && WiresOk(k, s) && Enabled(k, s, TransmitUp)
    requires forall b <- s.up.log :: !IsControlBody(b)
    ensures WiresOk(k, Step(k, s, TransmitUp))
  {
    TransmittedUp(k, s.client, s.up);
    assert forall b <- s.up.call :: b in s.up.log;
    TransmittedWire(s.up, s.serverGot, s.toServer);
    assert s.toServer == [] && s.serverGot == 0 ==> s.up.sent == 0;
  }

  lemma TransmitDownWires(k: Kind, s: System)
    requires DownOk(k, s.server, s.down) && WiresOk(k, s) && Enabled(k, s, TransmitDown)
    requires forall b <- s.down.log :: !IsControlBody(b)
    ensures WiresOk(k, Step(k, s, TransmitDown))
  {
    TransmittedDown(k, s.server, s.down);
    assert forall b <- s.down.call :: b in s.down.log;
    TransmittedWire(s.down, s.clientGot, s.toClient);
  }

  lemma TransmitUpInv(k: Kind, s: System)
    requires Inv(k, s) && Enabled(k, s, TransmitUp)
    ensures Inv(k, Step(k, s, TransmitUp))
  {
    LogData(k, s);
    TransmittedUp(k, s.client, s.up);
    TransmitUpWires(k, s);
    TransmitUpCredit(s.client, s.server, s.up, s.toServer, s.cut);
  }

  lemma TransmitUpCredit(c: Client, v: Server, up: Lane, wire: seq<Body>, cut: bool)
    requires OutputCredit(c, v, up.control, wire, cut) && CanTransmit(up)
    requires (forall b <- up.log :: !IsControlBody(b)) && (forall b <- up.call :: b in up.log)
    ensures OutputCredit(c, v, Transmitted(up).control, wire + [NextBody(up)], cut)
  {
    TransmittedCredit(FromServer, up, wire);
  }

  lemma TransmitDownCredit(c: Client, v: Server, down: Lane, wire: seq<Body>, cut: bool)
    requires InputCredit(c, v, down.control, wire, cut) && CanTransmit(down)
    requires (forall b <- down.log :: !IsControlBody(b)) && (forall b <- down.call :: b in down.log)
    ensures InputCredit(c, v, Transmitted(down).control, wire + [NextBody(down)], cut)
  {
    TransmittedCredit(FromClient, down, wire);
  }

  lemma SentOnly(k: Kind, v: Server, down: Lane, cut: bool)
    requires ServerOk(k, v, down, cut) && EndOk(k, v, down, cut) && CanTransmit(down)
    requires down.sent <= |down.log| && (down.call == down.log[down.sent..])
    ensures ServerOk(k, v, Transmitted(down), cut) && EndOk(k, v, Transmitted(down), cut)
  {
  }

  lemma TransmitDownInv(k: Kind, s: System)
    requires Inv(k, s) && Enabled(k, s, TransmitDown)
    ensures Inv(k, Step(k, s, TransmitDown))
  {
    LogData(k, s);
    TransmittedDown(k, s.server, s.down);
    TransmitDownWires(k, s);
    SentOnly(k, s.server, s.down, s.cut);
    TransmitDownCredit(s.client, s.server, s.down, s.toClient, s.cut);
  }

  lemma CutWire(log: seq<Body>, sent: nat, got: nat, wire: seq<Body>, cut: bool, i: nat)
    requires WireOk(log, sent, got, wire, cut) && i <= |wire|
    ensures WireOk(log, sent, got, wire[..i], true)
  {
    assert wire == wire[..i] + wire[i..];
    FilterConcat(wire[..i], wire[i..], (b: Body) => !IsControlBody(b));
    assert Data(wire) == Data(wire[..i]) + Data(wire[i..]);
    assert forall j :: 0 <= j < |Data(wire[..i])| ==> Data(wire[..i])[j] == Data(wire)[j] == log[got + j];
  }

  lemma CutCredit(k: Kind, d: Direction, wire: seq<Body>, i: nat)
    requires i <= |wire|
    requires forall b <- wire :: IsControlBody(b) ==> UpControl(k, b) || DownControl(k, b)
    ensures Credits(d, wire[..i]) <= Credits(d, wire)
  {
    assert wire == wire[..i] + wire[i..];
    CreditsConcat(d, wire[..i], wire[i..]);
    assert forall b <- wire[i..] :: b in wire;
    CreditsPositive(k, wire[i..]);
  }

  lemma CutWires(k: Kind, s: System, i: nat, j: nat)
    requires WiresOk(k, s) && Enabled(k, s, Cut(i, j))
    ensures WiresOk(k, Step(k, s, Cut(i, j)))
  {
    CutWire(s.up.log, s.up.sent, s.serverGot, s.toServer, s.cut, i);
    CutWire(s.down.log, s.down.sent, s.clientGot, s.toClient, s.cut, j);
    assert forall b <- s.toServer[..i] :: b in s.toServer;
    assert forall b <- s.toClient[..j] :: b in s.toClient;
  }

  lemma CutCredits(k: Kind, s: System, i: nat, j: nat)
    requires WiresOk(k, s) && i <= |s.toServer| && j <= |s.toClient|
    requires OutputCredit(s.client, s.server, s.up.control, s.toServer, s.cut)
    requires InputCredit(s.client, s.server, s.down.control, s.toClient, s.cut)
    ensures OutputCredit(s.client, s.server, s.up.control, s.toServer[..i], true)
    ensures InputCredit(s.client, s.server, s.down.control, s.toClient[..j], true)
  {
    CutCredit(k, FromServer, s.toServer, i);
    CutCredit(k, FromClient, s.toClient, j);
  }

  lemma CutSide(k: Kind, v: Server, down: Lane)
    requires ServerSide(k, v, down, false)
    ensures ServerSide(k, v, down, true)
  {
  }

  lemma CutInv(k: Kind, s: System, i: nat, j: nat)
    requires Inv(k, s) && Enabled(k, s, Cut(i, j))
    ensures Inv(k, Step(k, s, Cut(i, j)))
  {
    CutWires(k, s, i, j);
    CutCredits(k, s, i, j);
    CutSide(k, s.server, s.down);
  }

  // --- All steps ------------------------------------------------------------------------------

  predicate ServerAlone(l: Label) {
    || l.SNext? || l.SResume? || l.SAsk? || l.STakeUp? || l.SContinue? || l.SWritten? || l.SReturn?
    || l.SFinish? || l.SFail? || l.SReplace? || l.SRemove? || l.SLost?
  }

  ghost function TurnOf(k: Kind, s: System, l: Label): ServerTurn
    requires Enabled(k, s, l) && ServerAlone(l)
  {
    var v, accepted := s.server, |s.down.log|;
    match l
    case SNext => ServerTurn(ServerNext(v), None)
    case SResume => ServerResume(v)
    case SAsk(r) => ServerTurn(ServerAsk(v, r), None)
    case STakeUp(valid) => ServerTakeUp(k, v, accepted, valid)
    case SContinue(large) => ServerContinue(v, accepted, large)
    case SWritten => ServerTurn(ServerWritten(v), None)
    case SReturn => ServerTurn(ServerReturn(k, v), None)
    case SFinish(large) => ServerFinish(v, Result, Completed, large)
    case SFail(fate, large) => ServerFail(v, fate, large)
    case SReplace => ServerReplace(v)
    case SRemove => ServerTurn(ServerRemove(v), None)
    case SLost => ServerTurn(ServerDisconnect(v), None)
  }

  lemma TurnOfGood(k: Kind, s: System, l: Label)
    requires ServerSide(k, s.server, s.down, s.cut) && Enabled(k, s, l) && ServerAlone(l)
    ensures GoodServerTurn(k, s.server, s.down, TurnOf(k, s, l), s.cut)
  {
    var v, d := s.server, s.down;
    match l
    case SNext => ServerNextGood(k, v, d, s.cut);
    case SResume => ServerResumeGood(k, v, d, s.cut);
    case SAsk(r) => ServerAskGood(k, v, d, s.cut, r);
    case STakeUp(valid) => ServerTakeUpGood(k, v, d, s.cut, valid);
    case SContinue(large) => ServerContinueGood(k, v, d, s.cut, large);
    case SWritten => ServerWrittenGood(k, v, d, s.cut);
    case SReturn => ServerReturnGood(k, v, d, s.cut);
    case SFinish(large) => ServerFinishGood(k, v, d, s.cut, Result, Completed, large);
    case SFail(fate, large) => ServerFinishGood(k, v, d, s.cut, Error, fate, large);
    case SReplace => ServerReplaceGood(k, v, d, s.cut);
    case SRemove => ServerRemoveGood(k, v, d, s.cut);
    case SLost => ServerDisconnectGood(k, v, d);
  }

  lemma ServerStepInv(k: Kind, s: System, l: Label)
    requires Inv(k, s) && Enabled(k, s, l) && ServerAlone(l)
    ensures Inv(k, Step(k, s, l))
  {
    TurnOfGood(k, s, l);
    OwnServerStepInv(k, s, TurnOf(k, s, l));
    TurnOfStep(k, s, l);
  }

  lemma TurnOfStep(k: Kind, s: System, l: Label)
    requires Enabled(k, s, l) && ServerAlone(l)
    ensures Step(k, s, l) == ByServer(s, TurnOf(k, s, l))
  {
  }

  predicate ClientAlone(l: Label) {
    || l.COpened? || l.CSend? || l.CContinue? || l.CCloseInput? || l.CNext? || l.CResume?
    || l.CAbort? || l.CCancel? || l.CLost?
  }

  ghost function ClientTurnOf(k: Kind, s: System, l: Label): ClientTurn
    requires Enabled(k, s, l) && ClientAlone(l)
  {
    var c := s.client;
    match l
    case COpened => ClientOpened(k, c)
    case CSend(v) => ClientTurn(ClientSend(c, v), None)
    case CContinue(large) => ClientContinue(c, large)
    case CCloseInput => ClientCloseInput(c)
    case CNext => ClientTurn(ClientNext(c), None)
    case CResume => ClientResume(c)
    case CAbort => ClientAbort(c)
    case CCancel => ClientCancel(c)
    case CLost => ClientTurn(ClientFail(c, Local), None)
  }

  lemma ClientTurnGood(k: Kind, s: System, l: Label)
    requires ClientOk(k, s.client) && UpOk(k, s.client, s.up)
    requires Enabled(k, s, l) && ClientAlone(l) && Clean(s, l)
    ensures GoodTurn(k, s.client, s.up, ClientTurnOf(k, s, l))
  {
    match l
    case COpened => OpenedGood(k, s.client, s.up);
    case CSend(v) => SendGood(k, s.client, s.up, v);
    case CContinue(large) => ContinueGood(k, s.client, s.up, large);
    case CCloseInput => CloseGood(k, s.client, s.up);
    case CNext => NextGood(k, s.client, s.up);
    case CResume => ResumeGood(k, s.client, s.up);
    case _ => GiveUpGood(k, s.client, s.up);
  }

  lemma ClientTurnStep(k: Kind, s: System, l: Label)
    requires Enabled(k, s, l) && ClientAlone(l)
    ensures Step(k, s, l) == ByClient(s, ClientTurnOf(k, s, l))
  {
  }

  lemma ClientStepInv(k: Kind, s: System, l: Label)
    requires Inv(k, s) && Enabled(k, s, l) && ClientAlone(l) && Clean(s, l)
    ensures Inv(k, Step(k, s, l))
  {
    ClientTurnGood(k, s, l);
    var t := ClientTurnOf(k, s, l);
    OwnStepInv(k, s, t.client, Emit(s.up, t.frame));
    ClientTurnStep(k, s, l);
  }

  lemma WireStepInv(k: Kind, s: System, l: Label)
    requires Inv(k, s) && Enabled(k, s, l)
    requires l.CReceive? || l.SReceive? || l.TransmitUp? || l.TransmitDown? || l.Cut?
    ensures Inv(k, Step(k, s, l))
  {
    match l
    case CReceive(valid) => CReceiveInv(k, s, valid);
    case SReceive(valid, decision) => SReceiveInv(k, s, valid, decision);
    case TransmitUp => TransmitUpInv(k, s);
    case TransmitDown => TransmitDownInv(k, s);
    case Cut(i, j) => CutInv(k, s, i, j);
  }

  /** Every step of the system, however interleaved, keeps the invariant. */
  lemma StepInv(k: Kind, s: System, l: Label)
    requires Inv(k, s) && Enabled(k, s, l) && Clean(s, l)
    ensures Inv(k, Step(k, s, l))
  {
    if ServerAlone(l) {
      ServerStepInv(k, s, l);
    } else if l.CReceive? || l.SReceive? || l.TransmitUp? || l.TransmitDown? || l.Cut? {
      WireStepInv(k, s, l);
    } else {
      ClientStepInv(k, s, l);
    }
  }
}
