/**
 * Giving a call up: the server is told exactly once, unless it never heard of
 * the call, and being told ends the call there. And what the consumer and the
 * handler see of how their call ended.
 */
module StreamCancel {

  import opened Wrappers
  import opened Protocol
  import opened Flow
  import opened Stream
  import opened StreamInvariant
  import opened StreamSteps
  import opened StreamTheorems
  import opened StreamProgress

  // --- Cancels under way -----------------------------------------------------------------------

  ghost function Cancels(frames: seq<Body>): nat {
    if frames == [] then 0 else (if frames[0].Cancel? then 1 else 0) + Cancels(frames[1..])
  }

  lemma {:induction false} CancelsConcat(a: seq<Body>, b: seq<Body>)
    ensures Cancels(a + b) == Cancels(a) + Cancels(b)
  {
    if a == [] {
      assert a + b == b;
    } else {
      assert (a + b)[0] == a[0] && (a + b)[1..] == a[1..] + b;
      CancelsConcat(a[1..], b);
    }
  }

  lemma CancelsSnoc(frames: seq<Body>, b: Body)
    ensures Cancels(frames + [b]) == Cancels(frames) + if b.Cancel? then 1 else 0
  {
    CancelsConcat(frames, [b]);
  }

  /** Cancels that the client submitted and the server has not taken. */
  ghost function UnderWay(s: System): nat { Cancels(s.up.control) + Cancels(s.toServer) }

  /** The consumer or a timer gives up an open call, or an item turns out to be too large. */
  predicate GivesUp(s: System, l: Label) {
    s.client.fate == Running && (l.CCancel? || l.CAbort? || (l.CContinue? && l.large))
  }

  /** The server takes a cancel. */
  predicate Takes(s: System, l: Label) { l.SReceive? && s.toServer != [] && s.toServer[0].Cancel? }

  /** While a call is open, its open waits exactly as long as nothing was sent. */
  lemma OpenWaits(k: Kind, c: Client, up: Lane)
    requires UpOk(k, c, up) && c.fate == Running
    ensures Open in up.call <==> up.sent == 0
  {
    if up.sent == 0 { assert up.call[0] == Open; }
  }

  lemma EmitCancels(l: Lane, frame: Option<Body>)
    ensures var counts := frame == Some(Cancel) && Open !in l.call;
            Cancels(Emit(l, frame).control) == Cancels(l.control) + if counts then 1 else 0
  {
    if frame.Some? { CancelsSnoc(l.control, frame.value); }
  }

  lemma GivingUpTurn(k: Kind, s: System, l: Label)
    requires Enabled(k, s, l) && ClientAlone(l)
    ensures ClientTurnOf(k, s, l).frame == Some(Cancel) <==> GivesUp(s, l)
    ensures GivesUp(s, l) ==> ClientTurnOf(k, s, l).client.fate == Local
  {
  }

  /** The cancels under way change when the client gives up a call that was opened, and when the server takes one. */
  ghost predicate Accounts(s: System, s': System, l: Label) {
    UnderWay(s') + (if Takes(s, l) then 1 else 0) == UnderWay(s) + if GivesUp(s, l) && s.up.sent > 0 then 1 else 0
  }

  lemma ClientAccounts(k: Kind, s: System, l: Label)
    requires UpOk(k, s.client, s.up) && Enabled(k, s, l) && ClientAlone(l)
    ensures Accounts(s, Step(k, s, l), l)
    ensures GivesUp(s, l) ==> Step(k, s, l).client.fate == Local
  {
    GivingUpTurn(k, s, l);
    EmitCancels(s.up, ClientTurnOf(k, s, l).frame);
    ClientTurnStep(k, s, l);
    if s.client.fate == Running { OpenWaits(k, s.client, s.up); }
  }

  lemma TransmitAccounts(k: Kind, s: System)
    requires UpOk(k, s.client, s.up) && Enabled(k, s, TransmitUp)
    ensures Accounts(s, Step(k, s, TransmitUp), TransmitUp)
  {
    CancelsSnoc(s.toServer, NextBody(s.up));
    if s.up.control == [] {
      assert s.up.call[0] == s.up.log[s.up.sent];
    }
  }

  lemma StepAccounts(k: Kind, s: System, l: Label)
    requires Inv(k, s) && Enabled(k, s, l) && !l.Cut?
    ensures Accounts(s, Step(k, s, l), l)
    ensures GivesUp(s, l) ==> Step(k, s, l).client.fate == Local
  {
    if ClientAlone(l) {
      ClientAccounts(k, s, l);
    } else if l.TransmitUp? {
      TransmitAccounts(k, s);
    } else if ServerAlone(l) {
      TurnOfStep(k, s, l);
    }
  }

  // --- A cancel that arrives ---------------------------------------------------------------------

  /** How the server stands once it has taken a cancel of a call that was running. */
  ghost predicate Stopped(v: Server, down: Lane) {
    && v.accepted && v.end.fate == Local && v.end.final == Some(Error) && !v.end.removed
    && v.output.window.closed && v.input.queue.mode == Failed
    && down.call != [] && down.call[|down.call| - 1] == Error
  }

  lemma CancelReceived(k: Kind, v: Server, valid: bool, decision: Decision)
    requires (v.accepted || v.end.fate != Running) && (v.end.fate == Running ==> !v.end.removed)
    ensures var t := ServerReceive(k, v, Cancel, valid, decision);
            && t.server.end.fate != Running && t.server.output.produced == v.output.produced
            && (v.end.fate == Running ==>
                  t.frame == Some(Error) && t.server.accepted && t.server.end.fate == Local
                  && t.server.end.final == Some(Error) && !t.server.end.removed
                  && t.server.output.window.closed && t.server.input.queue.mode == Failed)
  {
  }

  lemma TakesIsKnown(k: Kind, s: System, l: Label)
    requires Inv(k, s) && Takes(s, l)
    ensures (s.server.accepted || s.server.end.fate != Running) && (s.server.end.fate == Running ==> !s.server.end.removed)
  {
    assert s.serverGot > 0;
  }

  lemma CancelStops(k: Kind, s: System, l: Label)
    requires Inv(k, s) && Enabled(k, s, l) && Takes(s, l)
    ensures var s' := Step(k, s, l);
            && s'.server.end.fate != Running && s'.server.output.produced == s.server.output.produced
            && (s.server.end.fate == Running ==> Stopped(s'.server, s'.down))
  {
    TakesIsKnown(k, s, l);
    CancelTaken(k, s, l);
  }

  lemma CancelTaken(k: Kind, s: System, l: Label)
    requires Enabled(k, s, l) && Takes(s, l) && (s.server.accepted || s.server.end.fate != Running)
    requires s.server.end.fate == Running ==> !s.server.end.removed
    ensures var s' := Step(k, s, l);
            && s'.server.end.fate != Running && s'.server.output.produced == s.server.output.produced
            && (s.server.end.fate == Running ==> Stopped(s'.server, s'.down))
  {
    CancelReceived(k, s.server, l.valid, l.decision);
  }

  lemma CutStays(k: Kind, states: seq<System>, labels: seq<Label>, n: nat)
    requires IsRun(k, states, labels) && n < |labels| && !states[n + 1].cut
    ensures !states[n].cut && !labels[n].Cut?
  {
    CutStep(k, states[n], labels[n]);
  }

  lemma CutStep(k: Kind, s: System, l: Label)
    requires Enabled(k, s, l)
    ensures Step(k, s, l).cut <==> s.cut || l.Cut?
  {
    if ServerAlone(l) { TurnOfStep(k, s, l); } else if ClientAlone(l) { ClientTurnStep(k, s, l); }
  }

  /**
   * A cancel that the server takes ends the call there: the handler's credit is
   * closed, its input fails, it sends nothing more, and the client is answered.
   */
  lemma CancelEndsCall(k: Kind, states: seq<System>, labels: seq<Label>, i: nat, n: nat)
    requires IsRun(k, states, labels) && i < n <= |labels| && Takes(states[i], labels[i])
    ensures states[n].server.end.fate != Running
    ensures states[i].server.end.fate == Running ==>
              && Stopped(states[i + 1].server, states[i + 1].down)
              && states[n].server.end.fate == Local && states[n].server.end.final == Some(Error)
              && states[n].server.output.produced == states[i].server.output.produced
  {
    RunInv(k, states, labels, i);
    NextStops(k, states, labels, i);
    RunGrows(k, states, labels, i + 1, n);
  }

  lemma NextStops(k: Kind, states: seq<System>, labels: seq<Label>, i: nat)
    requires IsRun(k, states, labels) && i < |labels| && Inv(k, states[i]) && Takes(states[i], labels[i])
    ensures states[i + 1].server.end.fate != Running
    ensures states[i + 1].server.output.produced == states[i].server.output.produced
    ensures states[i].server.end.fate == Running ==> Stopped(states[i + 1].server, states[i + 1].down)
  {
    CancelStops(k, states[i], labels[i]);
  }

  // --- Every run -----------------------------------------------------------------------------------

  /** The cancels that the server took in the first `n` steps. */
  ghost function TakenCancels(states: seq<System>, labels: seq<Label>, n: nat): nat
    requires n <= |labels| < |states|
  {
    if n == 0 then 0
    else TakenCancels(states, labels, n - 1) + if Takes(states[n - 1], labels[n - 1]) then 1 else 0
  }

  /** How often a call that was opened was given up in the first `n` steps. */
  ghost function GivenUps(states: seq<System>, labels: seq<Label>, n: nat): nat
    requires n <= |labels| < |states|
  {
    if n == 0 then 0
    else
      GivenUps(states, labels, n - 1)
      + if GivesUp(states[n - 1], labels[n - 1]) && states[n - 1].up.sent > 0 then 1 else 0
  }

  lemma {:induction false} CancelBalance(k: Kind, states: seq<System>, labels: seq<Label>, n: nat)
    requires IsRun(k, states, labels) && n <= |labels| && !states[n].cut
    ensures UnderWay(states[n]) + TakenCancels(states, labels, n) == GivenUps(states, labels, n)
  {
    if n > 0 {
      CutStays(k, states, labels, n - 1);
      CancelBalance(k, states, labels, n - 1);
      NextAccounts(k, states, labels, n - 1);
    }
  }

  lemma NextAccounts(k: Kind, states: seq<System>, labels: seq<Label>, n: nat)
    requires IsRun(k, states, labels) && n < |labels| && !labels[n].Cut?
    ensures Accounts(states[n], states[n + 1], labels[n])
    ensures GivesUp(states[n], labels[n]) ==> states[n + 1].client.fate == Local
  {
    RunInv(k, states, labels, n);
    StepAccounts(k, states[n], labels[n]);
  }

  lemma NotYetGivenUp(k: Kind, states: seq<System>, labels: seq<Label>, n: nat)
    requires IsRun(k, states, labels) && n <= |labels| && states[n].client.fate == Running
    ensures GivenUps(states, labels, n) == 0
  {
    AllOver(k, states, labels);
    forall m | 0 <= m < n ensures !GivesUp(states[m], labels[m]) {
      if GivesUp(states[m], labels[m]) {
        GivingUpEnds(k, states, labels, m);
        StaysOver(states, m + 1, n);
        assert false;
      }
    }
    NeverGivenUp(states, labels, n);
  }

  lemma GivingUpEnds(k: Kind, states: seq<System>, labels: seq<Label>, m: nat)
    requires IsRun(k, states, labels) && m < |labels| && GivesUp(states[m], labels[m])
    ensures states[m + 1].client.fate == Local
  {
    RunInv(k, states, labels, m);
    StepAccounts(k, states[m], labels[m]);
  }

  lemma GivenUpOnce(k: Kind, states: seq<System>, labels: seq<Label>, m: nat, n: nat)
    requires IsRun(k, states, labels) && m < n <= |labels| && GivesUp(states[m], labels[m])
    ensures GivenUps(states, labels, n) == if states[m].up.sent > 0 then 1 else 0
    ensures states[n].client.fate == Local
  {
    GivingUpEnds(k, states, labels, m);
    NotYetGivenUp(k, states, labels, m);
    AllOver(k, states, labels);
    StaysOver(states, m + 1, n);
    NoMoreGivenUps(states, labels, m + 1, n);
  }

  lemma {:induction false} NoMoreGivenUps(states: seq<System>, labels: seq<Label>, m: nat, n: nat)
    requires m <= n <= |labels| < |states|
    requires forall i :: m <= i <= n ==> states[i].client.fate != Running
    ensures GivenUps(states, labels, n) == GivenUps(states, labels, m)
  {
    if m < n { NoMoreGivenUps(states, labels, m, n - 1); }
  }

  lemma AllOver(k: Kind, states: seq<System>, labels: seq<Label>)
    requires IsRun(k, states, labels)
    ensures forall i :: 0 <= i < |states| - 1 ==> SameEnding(states[i].client, states[i + 1].client)
  {
    forall i | 0 <= i < |labels| ensures SameEnding(states[i].client, states[i + 1].client) {
      NextOver(k, states, labels, i);
    }
  }

  lemma {:induction false} StaysOver(states: seq<System>, m: nat, n: nat)
    requires m <= n < |states| && states[m].client.fate != Running
    requires forall i :: 0 <= i < |states| - 1 ==> SameEnding(states[i].client, states[i + 1].client)
    ensures forall i :: m <= i <= n ==> states[i].client.fate != Running
    ensures SameEnding(states[m].client, states[n].client)
  {
    if m < n {
      StaysOver(states, m, n - 1);
      assert SameEnding(states[n - 1].client, states[n - 1 + 1].client);
    }
  }

  lemma NextOver(k: Kind, states: seq<System>, labels: seq<Label>, n: nat)
    requires IsRun(k, states, labels) && n < |labels|
    ensures SameEnding(states[n].client, states[n + 1].client)
  {
    OverStep(k, states[n], labels[n]);
  }

  /** The server has not heard of the call, and nothing of it is on the way. */
  ghost predicate Unheard(s: System) {
    && s.client.fate != Running && s.up.sent == 0 && s.up.call == [] && s.up.control == [] && s.toServer == []
    && s.serverGot == 0 && !s.server.accepted && s.server.end.fate == Running
  }

  lemma WithdrawnUnheard(k: Kind, s: System, l: Label)
    requires Inv(k, s) && Enabled(k, s, l) && GivesUp(s, l) && s.up.sent == 0
    ensures Unheard(Step(k, s, l))
  {
    GivingUpTurn(k, s, l);
    ClientTurnStep(k, s, l);
    OpenWaits(k, s.client, s.up);
    assert |Data(s.toServer)| == 0;
    NoDataUnsent(k, s);
  }

  lemma NoDataUnsent(k: Kind, s: System)
    requires Inv(k, s) && s.up.sent == 0
    ensures s.toServer == [] && s.serverGot == 0
  {
  }

  lemma UnheardTurn(k: Kind, s: System, l: Label)
    requires Unheard(s) && Enabled(k, s, l) && ClientAlone(l)
    ensures ClientTurnOf(k, s, l).frame == None && ClientTurnOf(k, s, l).client.fate != Running
  {
  }

  lemma UnheardStays(k: Kind, s: System, l: Label)
    requires Inv(k, s) && Unheard(s) && Enabled(k, s, l)
    ensures Unheard(Step(k, s, l))
  {
    if ClientAlone(l) {
      UnheardTurn(k, s, l);
      ClientTurnStep(k, s, l);
    } else if ServerAlone(l) {
      UnheardServer(k, s, l);
      assert false;
    } else if l.CReceive? {
      StepGrowsFate(k, s, l);
    }
  }

  lemma UnheardServer(k: Kind, s: System, l: Label)
    requires FreshServer(s.server) && !s.server.accepted && s.server.end.fate == Running && ServerAlone(l)
    ensures !Enabled(k, s, l)
  {
  }

  lemma StepGrowsFate(k: Kind, s: System, l: Label)
    requires Enabled(k, s, l) && l.CReceive? && s.client.fate != Running
    ensures Step(k, s, l).client.fate != Running
  {
    ClientReceiveGrows(k, s.client, s.toClient[0], l.valid);
  }

  lemma {:induction false} RunUnheard(k: Kind, states: seq<System>, labels: seq<Label>, m: nat, n: nat)
    requires IsRun(k, states, labels) && m < n <= |labels| && GivesUp(states[m], labels[m]) && states[m].up.sent == 0
    ensures Unheard(states[n])
  {
    if n == m + 1 {
      NextWithdrawn(k, states, labels, m);
    } else {
      RunUnheard(k, states, labels, m, n - 1);
      NextUnheard(k, states, labels, n - 1);
    }
  }

  lemma NextWithdrawn(k: Kind, states: seq<System>, labels: seq<Label>, m: nat)
    requires IsRun(k, states, labels) && m < |labels| && GivesUp(states[m], labels[m]) && states[m].up.sent == 0
    ensures Unheard(states[m + 1])
  {
    RunInv(k, states, labels, m);
    WithdrawnUnheard(k, states[m], labels[m]);
  }

  lemma NextUnheard(k: Kind, states: seq<System>, labels: seq<Label>, n: nat)
    requires IsRun(k, states, labels) && n < |labels| && Unheard(states[n])
    ensures Unheard(states[n + 1])
  {
    RunInv(k, states, labels, n);
    UnheardStays(k, states[n], labels[n]);
  }

  /**
   * Whoever gives up a call tells the server: as long as the connection is up,
   * exactly one cancel waits at the writer, travels, or was taken. Only if the
   * open had not been sent is there none, and then the server never hears of
   * the call.
   */
  lemma GivingUpIsTold(k: Kind, states: seq<System>, labels: seq<Label>, m: nat, n: nat)
    requires IsRun(k, states, labels) && m < n <= |labels| && GivesUp(states[m], labels[m])
    ensures states[n].client.fate == Local
    ensures states[m].up.sent > 0 && !states[n].cut ==>
              UnderWay(states[n]) + TakenCancels(states, labels, n) == 1
    ensures states[m].up.sent == 0 ==> Unheard(states[n])
  {
    GivenUpOnce(k, states, labels, m, n);
    if !states[n].cut { CancelBalance(k, states, labels, n); }
    if states[m].up.sent == 0 { RunUnheard(k, states, labels, m, n); }
  }

  /** And nobody else does: a call that its client did not give up is never cancelled. */
  lemma NobodyElseCancels(k: Kind, states: seq<System>, labels: seq<Label>, n: nat)
    requires IsRun(k, states, labels) && n <= |labels| && !states[n].cut
    requires forall m :: 0 <= m < n ==> !GivesUp(states[m], labels[m])
    ensures UnderWay(states[n]) == 0 && TakenCancels(states, labels, n) == 0
  {
    CancelBalance(k, states, labels, n);
    NeverGivenUp(states, labels, n);
  }

  lemma {:induction false} NeverGivenUp(states: seq<System>, labels: seq<Label>, n: nat)
    requires n <= |labels| < |states| && forall m :: 0 <= m < n ==> !GivesUp(states[m], labels[m])
    ensures GivenUps(states, labels, n) == 0
  {
    if n > 0 { NeverGivenUp(states, labels, n - 1); }
  }

  // --- The cancel arrives ------------------------------------------------------------------------------

  lemma UpwardCancel(k: Kind, s: System, l: Label)
    requires Inv(k, s) && !s.cut && Upward(l) && Enabled(k, s, l) && UnderWay(s) > 0
    ensures var s' := Step(k, s, l);
            Inv(k, s') && !s'.cut && (UnderWay(s') > 0 || s'.server.end.fate != Running)
  {
    StepInv(k, s, l);
    StepAccounts(k, s, l);
    if Takes(s, l) { CancelStops(k, s, l); }
  }

  lemma UnderWayIsWork(s: System)
    ensures UnderWay(s) > 0 ==> UpwardWork(s) > 0
  {
  }

  /** Transmitting and receiving bring a cancel to the server. */
  lemma {:induction false} CancelArrives(k: Kind, s: System) returns (ls: seq<Label>)
    requires Inv(k, s) && !s.cut && (UnderWay(s) > 0 || s.server.end.fate != Running)
    ensures (forall l <- ls :: Upward(l)) && Allowed(k, s, ls)
    ensures After(k, s, ls).server.end.fate != Running && !After(k, s, ls).cut
    decreases UpwardWork(s)
  {
    ls := [];
    if s.server.end.fate == Running {
      UnderWayIsWork(s);
      var l := UpwardLabel(s);
      UpwardReady(k, s);
      UpwardCancel(k, s, l);
      UpwardWorkStep(k, s, l);
      ls := CancelArrives(k, Step(k, s, l));
      Prepend(k, s, l, ls);
      ls := [l] + ls;
    }
  }

  lemma {:induction false} TakenEnds(k: Kind, states: seq<System>, labels: seq<Label>, n: nat)
    requires IsRun(k, states, labels) && n <= |labels| && TakenCancels(states, labels, n) > 0
    ensures states[n].server.end.fate != Running
  {
    if Takes(states[n - 1], labels[n - 1]) {
      CancelEndsCall(k, states, labels, n - 1, n);
    } else {
      TakenEnds(k, states, labels, n - 1);
      RunGrows(k, states, labels, n - 1, n);
    }
  }

  /**
   * So giving up an opened call stops its handler: from every later state of the
   * run, while the connection is up, deliveries to the server alone end the call
   * there.
   */
  lemma GivingUpStopsServer(k: Kind, states: seq<System>, labels: seq<Label>, m: nat)
    returns (states': seq<System>, ls: seq<Label>)
    requires IsRun(k, states, labels) && m < |labels| && GivesUp(states[m], labels[m]) && states[m].up.sent > 0
    requires !states[|labels|].cut
    ensures (forall l <- ls :: Upward(l)) && IsRun(k, states', labels + ls) && states <= states'
    ensures states'[|labels + ls|].server.end.fate != Running
  {
    var n := |labels|;
    GivingUpIsTold(k, states, labels, m, n);
    if TakenCancels(states, labels, n) > 0 { TakenEnds(k, states, labels, n); }
    RunInv(k, states, labels, n);
    ls := CancelArrives(k, states[n]);
    states' := ExtendRun(k, states, labels, ls);
  }

  // --- What the consumer sees ---------------------------------------------------------------------------

  /** The queue of a call that is over ended if it completed or was cancelled by its consumer, and failed otherwise. */
  lemma EndingTurn(k: Kind, s: System, l: Label)
    requires s.client.fate == Running && s.client.output.queue.mode == Live && Enabled(k, s, l) && ClientAlone(l)
    ensures var c := ClientTurnOf(k, s, l).client;
            c.fate != Running ==> c.fate != Completed && c.output.queue.mode == if l.CCancel? then Ended else Failed
  {
  }

  lemma EndingReceived(k: Kind, c: Client, b: Body, valid: bool)
    requires c.fate == Running && c.output.queue.mode == Live
    ensures var c' := ClientReceive(k, c, b, valid);
            c'.fate != Running ==> c'.output.queue.mode == if c'.fate == Completed then Ended else Failed
  {
  }

  ghost predicate SeesEnding(s': System, l: Label) {
    s'.client.fate != Running ==>
      s'.client.output.queue.mode == if l.CCancel? || s'.client.fate == Completed then Ended else Failed
  }

  lemma EndingStep(k: Kind, s: System, l: Label)
    requires ClientOk(k, s.client) && s.client.fate == Running && Enabled(k, s, l)
    ensures SeesEnding(Step(k, s, l), l)
  {
    if ClientAlone(l) {
      EndingTurn(k, s, l);
      ClientTurnStep(k, s, l);
    } else if l.CReceive? {
      EndingReceived(k, s.client, s.toClient[0], l.valid);
    } else if ServerAlone(l) {
      TurnOfStep(k, s, l);
    }
  }

  ghost predicate SameEnding(c: Client, c': Client) {
    c.fate != Running ==> c'.fate == c.fate && c'.output.queue.mode == c.output.queue.mode
  }

  lemma OverStep(k: Kind, s: System, l: Label)
    requires Enabled(k, s, l)
    ensures SameEnding(s.client, Step(k, s, l).client)
  {
    if ClientAlone(l) {
      ClientTurnStep(k, s, l);
      OverTurn(k, s, l);
    } else if l.CReceive? {
      OverReceived(k, s.client, s.toClient[0], l.valid);
    } else if ServerAlone(l) {
      TurnOfStep(k, s, l);
    }
  }

  lemma OverTurn(k: Kind, s: System, l: Label)
    requires Enabled(k, s, l) && ClientAlone(l)
    ensures SameEnding(s.client, ClientTurnOf(k, s, l).client)
  {
  }

  lemma OverReceived(k: Kind, c: Client, b: Body, valid: bool)
    ensures SameEnding(c, ClientReceive(k, c, b, valid))
  {
  }

  /**
   * A consumer whose call ended at step `m` sees the end, if the call completed
   * or it gave the call up itself, and otherwise the error; and it never sees
   * anything else afterwards.
   */
  lemma ConsumerSees(k: Kind, states: seq<System>, labels: seq<Label>, m: nat, n: nat)
    requires IsRun(k, states, labels) && m < n <= |labels|
    requires states[m].client.fate == Running && states[m + 1].client.fate != Running
    ensures states[n].client.fate == states[m + 1].client.fate
    ensures states[n].client.output.queue.mode ==
            if labels[m].CCancel? || states[n].client.fate == Completed then Ended else Failed
  {
    NextEnding(k, states, labels, m);
    AllOver(k, states, labels);
    StaysOver(states, m + 1, n);
  }

  lemma NextEnding(k: Kind, states: seq<System>, labels: seq<Label>, m: nat)
    requires IsRun(k, states, labels) && m < |labels| && states[m].client.fate == Running
    ensures SeesEnding(states[m + 1], labels[m])
  {
    RunInv(k, states, labels, m);
    EndingStep(k, states[m], labels[m]);
  }
}
