/**
 * The inductive invariant of the stream protocol and its proof, step by step.
 *
 * Its heart is that a half's view of the peer is a function of the data frames
 * it has received, which are the first ones of the peer's log; and that the
 * credit a receiver has ever allowed is the credit the sender has ever been
 * granted, plus what is still on its way.
 */
module StreamInvariant {

  import opened Wrappers
  import opened Protocol
  import opened Flow
  import opened Stream

  // --- What the logs look like ------------------------------------------------------

  ghost function Items(d: Direction, values: seq<Payload>): (r: seq<Body>)
    ensures |r| == |values| && forall i :: 0 <= i < |r| ==> r[i] == Item(d, i, values[i])
  {
    seq(|values|, i requires 0 <= i < |values| => Item(d, i, values[i]))
  }

  ghost function If(b: bool, body: Body): seq<Body> { if b then [body] else [] }

  ghost function Final(f: Option<Body>): seq<Body> { if f.Some? then [f.value] else [] }

  ghost function UpLog(produced: seq<Payload>, closed: bool): seq<Body> {
    [Open] + Items(FromClient, produced) + If(closed, End(FromClient))
  }

  ghost function DownLog(produced: seq<Payload>, closed: bool, final: Option<Body>): seq<Body> {
    Items(FromServer, produced) + If(closed, End(FromServer)) + Final(final)
  }

  /** The credit of the window frames among `frames` for one direction. */
  ghost function Credits(d: Direction, frames: seq<Body>): int {
    if frames == [] then 0
    else (if frames[0].Window? && frames[0].direction == d then frames[0].credit else 0) + Credits(d, frames[1..])
  }

  lemma {:induction false} CreditsConcat(d: Direction, a: seq<Body>, b: seq<Body>)
    ensures Credits(d, a + b) == Credits(d, a) + Credits(d, b)
  {
    if a == [] {
      assert a + b == b;
    } else {
      assert (a + b)[0] == a[0] && (a + b)[1..] == a[1..] + b;
      CreditsConcat(d, a[1..], b);
    }
  }

  // --- The invariant ------------------------------------------------------------------

  ghost predicate UpControl(k: Kind, b: Body) {
    b.Cancel? || (b.Window? && k.HasOutput() && b.direction == FromServer && b.credit > 0)
  }

  ghost predicate DownControl(k: Kind, b: Body) {
    b.Window? && k.HasInput() && b.direction == FromClient && b.credit > 0
  }

  ghost predicate ClientOk(k: Kind, c: Client) {
    && c.input.window.served <= c.input.window.issued
    && (c.fate == Running && c.input.window.credit > 0 ==> c.input.window.served == c.input.window.issued)
    && c.output.queue.taken <= |c.output.queue.pushed| && c.output.queue.taken <= c.output.queue.asked
    && (c.output.queue.taken < |c.output.queue.pushed| ==> c.output.queue.asked == c.output.queue.taken)
    && (c.input.window.closed <==> c.fate != Running)
    && (c.output.queue.mode == Live <==> c.fate == Running)
    && c.input.window.issued == |c.input.requests|
    && c.input.produced <= c.input.requests && |c.input.produced| <= c.input.window.served
    && (c.fate == Running ==> c.input.sequence == c.input.continued == |c.input.produced|)
    && (!k.HasInput() ==> c.input.requests == [] && !c.input.closed)
    && c.output.regranted <= c.output.queue.taken
    && (c.fate == Running ==> |c.output.queue.pushed| == c.output.expected)
    && 0 <= c.output.allowance
    && c.output.allowance + c.output.expected <= INITIAL_STREAM_CREDIT + c.output.regranted
    && (c.ready && k.HasOutput() && c.fate == Running && !c.output.ended ==>
          c.output.allowance + c.output.expected == INITIAL_STREAM_CREDIT + c.output.regranted)
    && (!c.ready || !k.HasOutput() ==> c.output.allowance == 0 && c.output.expected == 0 && c.output.queue.pushed == [])
  }

  ghost predicate UpOk(k: Kind, c: Client, up: Lane) {
    && up.log == UpLog(c.input.produced, c.input.closed)
    && up.sent <= |up.log|
    && (up.call == up.log[up.sent..] || (c.fate != Running && up.call == []))
    && (up.sent == 0 ==> up.control == [])
    && (c.ready ==> up.sent >= 1)
    && (forall b <- up.control :: UpControl(k, b))
  }

  ghost predicate ServerOk(k: Kind, v: Server, down: Lane, cut: bool) {
    && v.output.window.served <= v.output.window.issued
    && (v.end.fate == Running && v.output.window.credit > 0 ==> v.output.window.served == v.output.window.issued)
    && v.input.queue.taken <= |v.input.queue.pushed| && v.input.queue.taken <= v.input.queue.asked
    && (v.input.queue.taken < |v.input.queue.pushed| ==> v.input.queue.asked == v.input.queue.taken)
    && (!v.accepted ==> FreshServer(v))
    && (!v.accepted && v.end.fate != Running ==> v.end.fate == Local && v.end.final == Some(Error) && v.end.removed)
    && (v.accepted ==> (v.output.window.closed <==> v.end.fate != Running))
    && (v.accepted ==> (v.input.queue.mode == Failed <==> v.end.fate != Running))
    && (v.accepted && v.end.fate == Running ==> (v.input.queue.mode == Ended <==> v.input.ended))
    && |v.output.produced| <= v.output.window.served
    && (v.end.fate == Running ==> v.output.window.issued == |v.output.produced| + if v.output.busy.AwaitCredit? then 1 else 0)
    && (v.end.fate == Running && v.output.busy.AwaitCredit? ==> !v.output.closed)
    && v.output.sequence + (if v.output.busy.AwaitWritten? && v.output.busy.item then 1 else 0) == |v.output.produced|
    && (v.output.busy.AwaitWritten? ==> v.output.busy.mark <= |down.log|)
    && (!k.HasOutput() ==> v.output.produced == [] && !v.output.closed && v.output.todo == [] && v.output.busy == Idle)
    && v.input.regranted <= v.input.queue.taken
    && (v.end.fate == Running ==> |v.input.queue.pushed| == v.input.expected)
    && 0 <= v.input.allowance
    && v.input.allowance + v.input.expected <= INITIAL_STREAM_CREDIT + v.input.regranted
    && (v.accepted && k.HasInput() && v.end.fate == Running && !v.input.ended ==>
          v.input.allowance + v.input.expected == INITIAL_STREAM_CREDIT + v.input.regranted)
  }

  /** A call ends once, with one terminal frame that is the last of its log. */
  ghost predicate EndOk(k: Kind, v: Server, down: Lane, cut: bool) {
    && (v.end.fate == Running ==> v.end.final == None && !v.end.replacing && !v.end.removed)
    && (v.end.fate != Running && !cut ==> (v.end.final.Some? <==> !v.end.replacing))
    && (v.end.replacing ==> v.end.final == None)
    && (v.end.final.Some? ==> v.end.final.value == Result || v.end.final.value == Error)
    && (v.end.final == Some(Result) ==> v.end.fate == Completed && (k.HasOutput() ==> v.output.closed))
    && (v.end.fate == Completed ==> v.end.final == Some(Result))
    && (v.accepted && v.end.removed && !cut ==> v.end.final.Some? && down.sent == |down.log|)
  }

  ghost predicate DownOk(k: Kind, v: Server, down: Lane) {
    && down.log == DownLog(v.output.produced, v.output.closed, v.end.final)
    && down.sent <= |down.log|
    && down.call == down.log[down.sent..]
    && (forall b <- down.control :: DownControl(k, b))
    && (!v.accepted && v.end.fate == Running ==> down.control == [])
  }

  /** The data frames on a wire are the log's next ones. */
  ghost predicate WireOk(log: seq<Body>, sent: nat, got: nat, wire: seq<Body>, cut: bool) {
    var n := |Data(wire)|;
    && got + n <= sent <= |log|
    && Data(wire) == log[got..got + n]
    && (!cut ==> got + n == sent)
  }

  ghost predicate WiresOk(k: Kind, s: System) {
    && WireOk(s.up.log, s.up.sent, s.serverGot, s.toServer, s.cut)
    && WireOk(s.down.log, s.down.sent, s.clientGot, s.toClient, s.cut)
    && (forall b <- s.toServer :: IsControlBody(b) ==> UpControl(k, b))
    && (forall b <- s.toClient :: IsControlBody(b) ==> DownControl(k, b))
    && (s.serverGot == 0 && s.toServer != [] ==> s.toServer[0] == Open)
  }

  ghost predicate ServerReads(produced: seq<Payload>, closed: bool, v: Server, got: nat) {
    && v.input.queue.pushed <= produced
    && (v.accepted || v.end.fate != Running <==> got > 0)
    && (v.accepted && v.end.fate == Running ==>
          && got == 1 + v.input.expected + (if v.input.ended then 1 else 0)
          && v.input.expected <= |produced|
          && (v.input.ended ==> closed && v.input.expected == |produced|))
  }

  ghost predicate ClientReads(k: Kind, v: Server, c: Client, got: nat) {
    && c.output.queue.pushed <= v.output.produced
    && (c.fate == Running ==>
          && got == c.output.expected + (if c.output.ended then 1 else 0)
          && c.output.expected <= |v.output.produced|
          && (c.output.ended ==> v.output.closed && c.output.expected == |v.output.produced|))
    && (c.fate == Completed ==> c.output.queue.pushed == v.output.produced && v.end.final == Some(Result))
  }

  ghost predicate OutputCredit(c: Client, v: Server, control: seq<Body>, wire: seq<Body>, cut: bool) {
    var granted := v.output.window.credit + v.output.window.served + Credits(FromServer, wire) + Credits(FromServer, control);
    && c.output.allowance + c.output.expected >= granted
    && (!cut && v.end.fate == Running ==> c.output.allowance + c.output.expected == granted)
  }

  ghost predicate InputCredit(c: Client, v: Server, control: seq<Body>, wire: seq<Body>, cut: bool) {
    var granted := c.input.window.credit + c.input.window.served + Credits(FromClient, wire) + Credits(FromClient, control);
    && v.input.allowance + v.input.expected >= granted
    && (!cut && c.fate == Running ==> v.input.allowance + v.input.expected == granted)
  }

  ghost predicate NoFault(c: Client, v: Server) { c.fate != Fate.Protocol && v.end.fate != Fate.Protocol }

  ghost predicate Inv(k: Kind, s: System) {
    && ClientOk(k, s.client)
    && UpOk(k, s.client, s.up)
    && ServerOk(k, s.server, s.down, s.cut)
    && EndOk(k, s.server, s.down, s.cut)
    && DownOk(k, s.server, s.down)
    && WiresOk(k, s)
    && ServerReads(s.client.input.produced, s.client.input.closed, s.server, s.serverGot)
    && ClientReads(k, s.server, s.client, s.clientGot)
    && OutputCredit(s.client, s.server, s.up.control, s.toServer, s.cut)
    && InputCredit(s.client, s.server, s.down.control, s.toClient, s.cut)
    && NoFault(s.client, s.server)
  }

  /**
   * No send goes on after the input was closed. `sendInput` looks before it
   * waits for its credit, not after.
   */
  predicate Clean(s: System, l: Label) {
    l.CContinue? && s.client.fate == Running ==> !s.client.input.closed
  }

  lemma StartInv(k: Kind, s: System)
    requires IsStart(s)
    ensures Inv(k, s)
  {
  }

  // --- The client's steps, one piece at a time -----------------------------------------

  lemma ItemsSnoc(d: Direction, values: seq<Payload>, v: Payload)
    ensures Items(d, values + [v]) == Items(d, values) + [Item(d, |values|, v)]
  {
  }

  lemma CreditsSnoc(d: Direction, frames: seq<Body>, b: Body)
    ensures Credits(d, frames + [b]) == Credits(d, frames) + if b.Window? && b.direction == d then b.credit else 0
  {
    CreditsConcat(d, frames, [b]);
  }

  /** What every step of the client alone has to show. */
  ghost predicate OwnStep(c: Client, c': Client, up: Lane, up': Lane) {
    && up.log <= up'.log && up'.sent == up.sent
    && c.input.produced <= c'.input.produced
    && (c.input.closed ==> c'.input.closed && c'.input.produced == c.input.produced)
    && (c'.fate == Running ==> c.fate == Running)
    && (c.fate != Running ==> c'.fate == c.fate)
    && (c'.fate == Completed ==> c.fate == Completed)
    && (c'.fate == Fate.Protocol ==> c.fate == Fate.Protocol)
    && c.output.queue.taken <= c'.output.queue.taken
    && c'.output.queue.pushed == c.output.queue.pushed && c'.output.expected == c.output.expected && c'.output.ended == c.output.ended
    && c'.output.allowance - c.output.allowance == Credits(FromServer, up'.control) - Credits(FromServer, up.control)
    && c'.input.window.credit + c'.input.window.served == c.input.window.credit + c.input.window.served
  }

  lemma OwnStepReads(k: Kind, c: Client, c': Client, v: Server, up: Lane, up': Lane, serverGot: nat, clientGot: nat)
    requires OwnStep(c, c', up, up')
    requires ServerReads(c.input.produced, c.input.closed, v, serverGot) && ClientReads(k, v, c, clientGot)
    ensures ServerReads(c'.input.produced, c'.input.closed, v, serverGot) && ClientReads(k, v, c', clientGot)
  {
  }

  lemma OwnStepCredit(c: Client, c': Client, v: Server, up: Lane, up': Lane, down: seq<Body>,
                      toServer: seq<Body>, toClient: seq<Body>, cut: bool)
    requires OwnStep(c, c', up, up')
    requires OutputCredit(c, v, up.control, toServer, cut) && InputCredit(c, v, down, toClient, cut)
    ensures OutputCredit(c', v, up'.control, toServer, cut) && InputCredit(c', v, down, toClient, cut)
  {
  }

  lemma LogGrows(log: seq<Body>, log': seq<Body>, sent: nat, got: nat, wire: seq<Body>, cut: bool)
    requires WireOk(log, sent, got, wire, cut) && log <= log'
    ensures WireOk(log', sent, got, wire, cut)
  {
  }

  lemma OwnStepInv(k: Kind, s: System, c': Client, up': Lane)
    requires Inv(k, s)
    requires ClientOk(k, c') && UpOk(k, c', up') && OwnStep(s.client, c', s.up, up')
    ensures Inv(k, s.(client := c', up := up'))
  {
    LogGrows(s.up.log, up'.log, s.up.sent, s.serverGot, s.toServer, s.cut);
    OwnStepReads(k, s.client, c', s.server, s.up, up', s.serverGot, s.clientGot);
    OwnStepCredit(s.client, c', s.server, s.up, up', s.down.control, s.toServer, s.toClient, s.cut);
  }

  lemma UpWindowOk(k: Kind, c: Client, c': Client, up: Lane, n: int)
    requires UpOk(k, c, up) && k.HasOutput() && n > 0 && up.sent >= 1
    requires c'.input.produced == c.input.produced && c'.input.closed == c.input.closed && c'.fate == c.fate
    ensures var up' := Submit(up, Body.Window(FromServer, n));
            && UpOk(k, c', up') && up'.log == up.log && up'.sent == up.sent
            && Credits(FromServer, up'.control) == Credits(FromServer, up.control) + n
  {
    CreditsSnoc(FromServer, up.control, Body.Window(FromServer, n));
  }

  lemma UpDataOk(k: Kind, c: Client, c': Client, up: Lane, b: Body)
    requires UpOk(k, c, up) && c.fate == Running && !IsControlBody(b)
    requires UpLog(c'.input.produced, c'.input.closed) == up.log + [b]
    requires c'.fate == Running && c'.ready == c.ready
    ensures var up' := Submit(up, b);
            && UpOk(k, c', up') && up'.log == up.log + [b] && up'.sent == up.sent && up'.control == up.control
  {
    assert (up.log + [b])[up.sent..] == up.log[up.sent..] + [b];
  }

  /** Nothing of a call goes out before its open: a withdrawn call stays silent. */
  lemma UpCancelOk(k: Kind, c: Client, c': Client, up: Lane)
    requires UpOk(k, c, up) && c.fate == Running
    requires c'.input.produced == c.input.produced && c'.input.closed == c.input.closed && c'.fate != Running && c'.ready == c.ready
    ensures var up' := Submit(up, Cancel);
            && UpOk(k, c', up') && up'.log == up.log && up'.sent == up.sent
            && Credits(FromServer, up'.control) == Credits(FromServer, up.control)
  {
    CreditsSnoc(FromServer, up.control, Cancel);
    if up.sent == 0 {
      assert up.call[0] == Open;
    }
  }

  ghost predicate GoodTurn(k: Kind, c: Client, up: Lane, t: ClientTurn) {
    var up' := Emit(up, t.frame);
    ClientOk(k, t.client) && UpOk(k, t.client, up') && OwnStep(c, t.client, up, up')
  }

  lemma OpenedGood(k: Kind, c: Client, up: Lane)
    requires ClientOk(k, c) && UpOk(k, c, up) && !c.ready && up.sent >= 1
    ensures GoodTurn(k, c, up, ClientOpened(k, c))
  {
    if k.HasOutput() {
      UpWindowOk(k, c, ClientOpened(k, c).client, up, INITIAL_STREAM_CREDIT);
    }
  }

  lemma NextGood(k: Kind, c: Client, up: Lane)
    requires ClientOk(k, c) && UpOk(k, c, up)
    ensures GoodTurn(k, c, up, ClientTurn(ClientNext(c), None))
  {
  }

  lemma ResumeGood(k: Kind, c: Client, up: Lane)
    requires ClientOk(k, c) && UpOk(k, c, up) && k.HasOutput() && c.output.regranted < c.output.queue.taken
    ensures GoodTurn(k, c, up, ClientResume(c))
  {
    if !c.output.ended && c.fate == Running {
      UpWindowOk(k, c, ClientResume(c).client, up, 1);
    }
  }

  lemma SendGood(k: Kind, c: Client, up: Lane, v: Payload)
    requires ClientOk(k, c) && UpOk(k, c, up) && k.HasInput()
    ensures GoodTurn(k, c, up, ClientTurn(ClientSend(c, v), None))
  {
  }

  lemma ContinueGood(k: Kind, c: Client, up: Lane, large: bool)
    requires ClientOk(k, c) && UpOk(k, c, up) && c.input.continued < c.input.window.served && c.input.continued < |c.input.requests|
    requires c.fate == Running ==> !c.input.closed
    ensures GoodTurn(k, c, up, ClientContinue(c, large))
  {
    var t := ClientContinue(c, large);
    ContinueOk(k, c, large);
    if c.fate == Running {
      if large {
        UpCancelOk(k, c, t.client, up);
      } else {
        ItemsSnoc(FromClient, c.input.produced, c.input.requests[c.input.continued]);
        assert UpLog(t.client.input.produced, false) == up.log + [t.frame.value];
        UpDataOk(k, c, t.client, up, t.frame.value);
      }
    }
  }

  lemma ContinueOk(k: Kind, c: Client, large: bool)
    requires ClientOk(k, c) && c.input.continued < c.input.window.served && c.input.continued < |c.input.requests|
    ensures ClientOk(k, ClientContinue(c, large).client)
  {
    if c.fate == Running {
      assert c.input.produced == c.input.requests[..c.input.continued];
      assert c.input.produced + [c.input.requests[c.input.continued]] == c.input.requests[..c.input.continued + 1];
    }
  }

  lemma CloseGood(k: Kind, c: Client, up: Lane)
    requires ClientOk(k, c) && UpOk(k, c, up) && k.HasInput()
    ensures GoodTurn(k, c, up, ClientCloseInput(c))
  {
    if !c.input.closed && c.fate == Running {
      assert UpLog(c.input.produced, true) == up.log + [End(FromClient)];
      UpDataOk(k, c, ClientCloseInput(c).client, up, End(FromClient));
    }
  }

  lemma GiveUpGood(k: Kind, c: Client, up: Lane)
    requires ClientOk(k, c) && UpOk(k, c, up)
    ensures GoodTurn(k, c, up, ClientAbort(c))
    ensures GoodTurn(k, c, up, ClientCancel(c))
    ensures GoodTurn(k, c, up, ClientTurn(ClientFail(c, Local), None))
  {
    if c.fate == Running {
      UpCancelOk(k, c, ClientAbort(c).client, up);
      UpCancelOk(k, c, ClientCancel(c).client, up);
    }
  }

  // --- The server's steps ----------------------------------------------------------------

  /** What every step of the server alone has to show. */
  ghost predicate OwnServerStep(v: Server, v': Server, down: Lane, down': Lane) {
    && down.log <= down'.log && down'.sent == down.sent
    && v.output.produced <= v'.output.produced
    && (v.output.closed ==> v'.output.closed && v'.output.produced == v.output.produced)
    && (v.end.final.Some? ==> v'.end.final == v.end.final && v'.output.produced == v.output.produced)
    && (v'.end.fate == Running ==> v.end.fate == Running)
    && (v.end.fate != Running ==> v'.end.fate == v.end.fate)
    && (v'.end.fate == Fate.Protocol ==> v.end.fate == Fate.Protocol)
    && v'.accepted == v.accepted && (v'.end.fate != Running ==> v.accepted || v.end.fate != Running)
    && v.input.queue.taken <= v'.input.queue.taken
    && v'.input.queue.pushed == v.input.queue.pushed && v'.input.expected == v.input.expected && v'.input.ended == v.input.ended
    && v'.input.allowance - v.input.allowance == Credits(FromClient, down'.control) - Credits(FromClient, down.control)
    && v'.output.window.credit + v'.output.window.served == v.output.window.credit + v.output.window.served
  }

  ghost predicate GoodServerTurn(k: Kind, v: Server, down: Lane, t: ServerTurn, cut: bool) {
    var down' := Emit(down, t.frame);
    && ServerOk(k, t.server, down', cut) && EndOk(k, t.server, down', cut) && DownOk(k, t.server, down')
    && OwnServerStep(v, t.server, down, down')
  }

  ghost predicate ServerSide(k: Kind, v: Server, down: Lane, cut: bool) {
    ServerOk(k, v, down, cut) && EndOk(k, v, down, cut) && DownOk(k, v, down)
  }

  lemma OwnServerReads(k: Kind, c: Client, v: Server, v': Server, down: Lane, down': Lane, serverGot: nat, clientGot: nat)
    requires OwnServerStep(v, v', down, down')
    requires ServerReads(c.input.produced, c.input.closed, v, serverGot) && ClientReads(k, v, c, clientGot)
    ensures ServerReads(c.input.produced, c.input.closed, v', serverGot) && ClientReads(k, v', c, clientGot)
  {
  }

  lemma OwnServerCredit(c: Client, v: Server, v': Server, up: seq<Body>, down: Lane, down': Lane,
                        toServer: seq<Body>, toClient: seq<Body>, cut: bool)
    requires OwnServerStep(v, v', down, down')
    requires OutputCredit(c, v, up, toServer, cut) && InputCredit(c, v, down.control, toClient, cut)
    ensures OutputCredit(c, v', up, toServer, cut) && InputCredit(c, v', down'.control, toClient, cut)
  {
  }

  lemma OwnServerStepInv(k: Kind, s: System, t: ServerTurn)
    requires Inv(k, s) && GoodServerTurn(k, s.server, s.down, t, s.cut)
    ensures Inv(k, ByServer(s, t))
  {
    var v', down' := t.server, Emit(s.down, t.frame);
    LogGrows(s.down.log, down'.log, s.down.sent, s.clientGot, s.toClient, s.cut);
    OwnServerReads(k, s.client, s.server, v', s.down, down', s.serverGot, s.clientGot);
    OwnServerCredit(s.client, s.server, v', s.up.control, s.down, down', s.toServer, s.toClient, s.cut);
  }

  lemma DownDataOk(k: Kind, v: Server, v': Server, down: Lane, b: Body)
    requires DownOk(k, v, down) && !IsControlBody(b)
    requires DownLog(v'.output.produced, v'.output.closed, v'.end.final) == down.log + [b]
    requires v'.accepted || v'.end.fate != Running
    ensures DownOk(k, v', Submit(down, b))
  {
    assert (down.log + [b])[down.sent..] == down.log[down.sent..] + [b];
  }

  lemma DownWindowOk(k: Kind, v: Server, v': Server, down: Lane, n: int)
    requires DownOk(k, v, down) && k.HasInput() && n > 0
    requires v'.output.produced == v.output.produced && v'.output.closed == v.output.closed && v'.end.final == v.end.final && v'.accepted
    ensures var down' := Submit(down, Body.Window(FromClient, n));
            && DownOk(k, v', down') && down' == down.(control := down'.control)
            && Credits(FromClient, down'.control) == Credits(FromClient, down.control) + n
  {
    CreditsSnoc(FromClient, down.control, Body.Window(FromClient, n));
  }

  lemma ServerNextGood(k: Kind, v: Server, down: Lane, cut: bool)
    requires ServerSide(k, v, down, cut) && v.accepted && k.HasInput()
    ensures GoodServerTurn(k, v, down, ServerTurn(ServerNext(v), None), cut)
  {
  }

  lemma ServerResumeGood(k: Kind, v: Server, down: Lane, cut: bool)
    requires ServerSide(k, v, down, cut) && k.HasInput() && v.input.regranted < v.input.queue.taken
    ensures GoodServerTurn(k, v, down, ServerResume(v), cut)
  {
    var t := ServerResume(v);
    if t.frame.Some? {
      DownWindowOk(k, v, t.server, down, 1);
    }
  }

  lemma ServerAskGood(k: Kind, v: Server, down: Lane, cut: bool, r: Request)
    requires ServerSide(k, v, down, cut) && v.accepted && k.HasOutput()
    ensures GoodServerTurn(k, v, down, ServerTurn(ServerAsk(v, r), None), cut)
  {
  }

  lemma ServerReturnGood(k: Kind, v: Server, down: Lane, cut: bool)
    requires ServerSide(k, v, down, cut) && v.accepted
    ensures GoodServerTurn(k, v, down, ServerTurn(ServerReturn(k, v), None), cut)
  {
  }

  lemma ServerWrittenGood(k: Kind, v: Server, down: Lane, cut: bool)
    requires ServerSide(k, v, down, cut) && v.output.busy.AwaitWritten?
    ensures GoodServerTurn(k, v, down, ServerTurn(ServerWritten(v), None), cut)
  {
  }

  lemma ServerFinishGood(k: Kind, v: Server, down: Lane, cut: bool, frame: Body, fate: Fate, large: bool)
    requires ServerSide(k, v, down, cut) && v.accepted
    requires frame == Error || (frame == Result && fate == Completed && (k.HasOutput() ==> v.output.closed))
    requires fate != Running && fate != Fate.Protocol && (frame == Error ==> fate != Completed)
    ensures GoodServerTurn(k, v, down, ServerFinish(v, frame, fate, large), cut)
  {
    var t := ServerFinish(v, frame, fate, large);
    if v.end.fate == Running && !large {
      assert DownLog(v.output.produced, v.output.closed, Some(frame)) == down.log + [frame];
      DownDataOk(k, v, t.server, down, frame);
    }
  }

  lemma ServerReplaceGood(k: Kind, v: Server, down: Lane, cut: bool)
    requires ServerSide(k, v, down, cut) && v.end.replacing
    ensures GoodServerTurn(k, v, down, ServerReplace(v), cut)
  {
    assert DownLog(v.output.produced, v.output.closed, Some(Error)) == down.log + [Error];
    DownDataOk(k, v, ServerReplace(v).server, down, Error);
  }

  lemma ServerDisconnectGood(k: Kind, v: Server, down: Lane)
    requires ServerSide(k, v, down, true) && v.accepted
    ensures GoodServerTurn(k, v, down, ServerTurn(ServerDisconnect(v), None), true)
  {
  }

  lemma ServerRemoveGood(k: Kind, v: Server, down: Lane, cut: bool)
    requires ServerSide(k, v, down, cut) && v.end.fate != Running
    requires cut || (v.end.final.Some? && down.sent == |down.log|)
    ensures GoodServerTurn(k, v, down, ServerTurn(ServerRemove(v), None), cut)
  {
  }

  lemma ServerTakeUpGood(k: Kind, v: Server, down: Lane, cut: bool, valid: bool)
    requires ServerSide(k, v, down, cut) && v.output.todo != [] && v.output.busy == Idle
    ensures GoodServerTurn(k, v, down, ServerTakeUp(k, v, |down.log|, valid), cut)
  {
    if v.end.fate == Running && !v.output.closed {
      if v.output.todo[0] == CloseOutput {
        ServerCloseGood(k, v, down, cut, valid);
      } else if !valid && !k.Duplex? {
        ServerInvalidGood(k, v, down, cut);
      }
    }
  }

  lemma ServerCloseGood(k: Kind, v: Server, down: Lane, cut: bool, valid: bool)
    requires ServerSide(k, v, down, cut) && v.output.todo != [] && v.output.busy == Idle
    requires v.end.fate == Running && !v.output.closed && v.output.todo[0] == CloseOutput
    ensures GoodServerTurn(k, v, down, ServerTakeUp(k, v, |down.log|, valid), cut)
  {
    var t := ServerTakeUp(k, v, |down.log|, valid);
    assert DownLog(v.output.produced, true, None) == down.log + [End(FromServer)];
    DownDataOk(k, v, t.server, down, End(FromServer));
  }

  lemma ServerInvalidGood(k: Kind, v: Server, down: Lane, cut: bool)
    requires ServerSide(k, v, down, cut) && v.output.todo != [] && v.end.fate == Running
    ensures GoodServerTurn(k, v, down, ServerFail(v.(output := v.output.(todo := v.output.todo[1..])), Invalid, false), cut)
  {
    var t := ServerFail(v.(output := v.output.(todo := v.output.todo[1..])), Invalid, false);
    assert DownLog(v.output.produced, v.output.closed, Some(Error)) == down.log + [Error];
    DownDataOk(k, v, t.server, down, Error);
  }

  lemma ServerContinueGood(k: Kind, v: Server, down: Lane, cut: bool, large: bool)
    requires ServerSide(k, v, down, cut) && v.output.busy.AwaitCredit?
    requires v.output.window.served == v.output.window.issued || v.output.window.closed
    ensures GoodServerTurn(k, v, down, ServerContinue(v, |down.log|, large), cut)
  {
    var t := ServerContinue(v, |down.log|, large);
    if v.end.fate == Running {
      if large {
        ServerTooLargeGood(k, v, down, cut);
      } else {
        ItemsSnoc(FromServer, v.output.produced, v.output.busy.v);
        assert DownLog(t.server.output.produced, false, None) == down.log + [t.frame.value];
        DownDataOk(k, v, t.server, down, t.frame.value);
      }
    }
  }

  /** An item over the size limit got its credit, but the call ends instead. */
  lemma ServerTooLargeGood(k: Kind, v: Server, down: Lane, cut: bool)
    requires ServerSide(k, v, down, cut) && v.output.busy.AwaitCredit? && v.end.fate == Running
    ensures GoodServerTurn(k, v, down, ServerFail(v.(output := v.output.(busy := Idle)), Local, false), cut)
  {
    var t := ServerFail(v.(output := v.output.(busy := Idle)), Local, false);
    assert DownLog(v.output.produced, v.output.closed, Some(Error)) == down.log + [Error];
    DownDataOk(k, v, t.server, down, Error);
  }
}
