/**
 * What can still happen in a stream: a producer waiting for credit is never
 * stuck while its consumer reads, and exactly when a send breaks the protocol.
 */
module StreamProgress {

  import opened Protocol
  import opened Flow
  import opened Stream
  import opened StreamInvariant
  import opened StreamReceive
  import opened StreamSteps
  import opened StreamTheorems

  // --- Continuations ------------------------------------------------------------------------

  /** The steps `ls` can be taken from `s`, one after the other. */
  ghost predicate Allowed(k: Kind, s: System, ls: seq<Label>)
    decreases ls
  {
    ls == [] || (Enabled(k, s, ls[0]) && Clean(s, ls[0]) && Allowed(k, Step(k, s, ls[0]), ls[1..]))
  }

  ghost function After(k: Kind, s: System, ls: seq<Label>): System
    requires Allowed(k, s, ls)
    decreases ls
  {
    if ls == [] then s else After(k, Step(k, s, ls[0]), ls[1..])
  }

  lemma {:induction false} AfterInv(k: Kind, s: System, ls: seq<Label>)
    requires Inv(k, s) && Allowed(k, s, ls)
    ensures Inv(k, After(k, s, ls))
    decreases ls
  {
    if ls != [] {
      StepInv(k, s, ls[0]);
      AfterInv(k, Step(k, s, ls[0]), ls[1..]);
    }
  }

  lemma {:induction false} AfterConcat(k: Kind, s: System, a: seq<Label>, b: seq<Label>)
    requires Allowed(k, s, a) && Allowed(k, After(k, s, a), b)
    ensures Allowed(k, s, a + b) && After(k, s, a + b) == After(k, After(k, s, a), b)
    decreases a
  {
    if a == [] {
      assert a + b == b;
    } else {
      assert (a + b)[0] == a[0] && (a + b)[1..] == a[1..] + b;
      AfterConcat(k, Step(k, s, a[0]), a[1..], b);
    }
  }

  /** The client has not given up the call: no cancel is under way. */
  predicate NoCancel(s: System) {
    s.client.fate == Running ==> Cancel !in s.up.control && Cancel !in s.toServer
  }

  lemma TurnNoCancel(k: Kind, s: System, l: Label)
    requires NoCancel(s) && Enabled(k, s, l) && ClientAlone(l)
    ensures NoCancel(ByClient(s, ClientTurnOf(k, s, l)))
  {
  }

  lemma ReceiveNoCancel(k: Kind, s: System, valid: bool)
    requires NoCancel(s) && s.toClient != []
    ensures NoCancel(ClientGets(s, ClientReceive(k, s.client, s.toClient[0], valid)))
  {
  }

  /** A writer's data frames are never cancels. */
  lemma CallHasNoCancel(k: Kind, s: System)
    requires Inv(k, s)
    ensures Cancel !in s.up.call
  {
    LogData(k, s);
    assert forall b <- s.up.call :: b in s.up.log;
  }

  lemma TransmitNoCancel(s: System)
    requires NoCancel(s) && CanTransmit(s.up) && Cancel !in s.up.call
    ensures NoCancel(s.(toServer := s.toServer + [NextBody(s.up)], up := Transmitted(s.up)))
  {
    assert NextBody(s.up) in s.up.control || NextBody(s.up) in s.up.call;
  }

  lemma NoCancelStep(k: Kind, s: System, l: Label)
    requires NoCancel(s) && Enabled(k, s, l) && Cancel !in s.up.call
    ensures NoCancel(Step(k, s, l))
  {
    if ClientAlone(l) {
      ClientTurnStep(k, s, l);
      TurnNoCancel(k, s, l);
    } else if ServerAlone(l) {
      TurnOfStep(k, s, l);
    } else if l.CReceive? {
      ReceiveNoCancel(k, s, l.valid);
    } else if l.TransmitUp? {
      TransmitNoCancel(s);
    }
  }

  // --- Deliveries -----------------------------------------------------------------------------

  /** Both halves are open and nothing has gone wrong. */
  ghost predicate Live(k: Kind, s: System) {
    Inv(k, s) && NoCancel(s) && !s.cut && s.client.fate == Running && s.server.end.fate == Running
  }

  predicate Upward(l: Label) { l == TransmitUp || l == SReceive(true, Accept) }

  predicate Downward(l: Label) { l == TransmitDown || l == CReceive(true) }

  lemma AcceptingFate(k: Kind, v: Server, b: Body)
    requires v.end.fate == Running && b != Cancel
    ensures var v' := ServerReceive(k, v, b, true, Accept).server;
            && (v'.end.fate == Running || v'.end.fate == Fate.Protocol)
            && (v'.end.fate == Running ==>
                  && v'.output == v.output.(window := v'.output.window)
                  && v'.output.window.issued == v.output.window.issued
                  && v'.output.window.served >= v.output.window.served
                  && v'.handlerDone == v.handlerDone)
  {
  }

  /** What deliveries to the server leave alone. */
  ghost predicate UpwardOnly(s: System, s': System) {
    && s'.client == s.client && s'.toClient == s.toClient
    && s'.server.output == s.server.output.(window := s'.server.output.window)
    && s'.server.output.window.issued == s.server.output.window.issued
  }

  ghost predicate DownwardOnly(s: System, s': System) {
    && s'.server == s.server && s'.toServer == s.toServer && s'.up == s.up && s'.client.ready == s.client.ready
    && s'.client.input == s.client.input.(window := s'.client.input.window)
    && s'.client.input.window.issued == s.client.input.window.issued
  }

  /** A frame delivered to the server changes nothing of the client, and ends nothing. */
  lemma UpwardLive(k: Kind, s: System, l: Label)
    requires Live(k, s) && Upward(l) && Enabled(k, s, l)
    ensures var s' := Step(k, s, l);
            Live(k, s') && UpwardOnly(s, s')
  {
    StepInv(k, s, l);
    CallHasNoCancel(k, s);
    NoCancelStep(k, s, l);
    if l.SReceive? {
      AcceptingFate(k, s.server, s.toServer[0]);
    }
  }

  lemma OpenFate(k: Kind, c: Client, b: Body)
    requires c.fate == Running && !b.Result? && !b.Error?
    ensures var c' := ClientReceive(k, c, b, true);
            && (c'.fate == Running || c'.fate == Fate.Protocol)
            && (c'.fate == Running ==>
                  && c'.ready == c.ready && c'.input == c.input.(window := c'.input.window)
                  && c'.input.window.issued == c.input.window.issued
                  && c'.input.window.served >= c.input.window.served)
  {
  }

  lemma DownwardLive(k: Kind, s: System, l: Label)
    requires Live(k, s) && Downward(l) && Enabled(k, s, l)
    ensures var s' := Step(k, s, l);
            Live(k, s') && DownwardOnly(s, s')
  {
    StepInv(k, s, l);
    CallHasNoCancel(k, s);
    NoCancelStep(k, s, l);
    if l.CReceive? {
      DownHead(k, s);
      OpenFate(k, s.client, s.toClient[0]);
    }
  }

  function UpwardWork(s: System): nat { 2 * (|s.up.control| + |s.up.call|) + |s.toServer| }

  function DownwardWork(s: System): nat { 2 * (|s.down.control| + |s.down.call|) + |s.toClient| }

  lemma UpwardWorkStep(k: Kind, s: System, l: Label)
    requires Upward(l) && Enabled(k, s, l)
    ensures UpwardWork(Step(k, s, l)) < UpwardWork(s)
  {
  }

  lemma DownwardWorkStep(k: Kind, s: System, l: Label)
    requires Downward(l) && Enabled(k, s, l)
    ensures DownwardWork(Step(k, s, l)) < DownwardWork(s)
  {
  }

  lemma Prepend(k: Kind, s: System, l: Label, rest: seq<Label>)
    requires Enabled(k, s, l) && Clean(s, l) && Allowed(k, Step(k, s, l), rest)
    ensures Allowed(k, s, [l] + rest) && After(k, s, [l] + rest) == After(k, Step(k, s, l), rest)
  {
    assert ([l] + rest)[1..] == rest;
  }

  function UpwardLabel(s: System): Label { if CanTransmit(s.up) then TransmitUp else SReceive(true, Accept) }

  function DownwardLabel(s: System): Label { if CanTransmit(s.down) then TransmitDown else CReceive(true) }

  lemma UpwardReady(k: Kind, s: System)
    requires !s.cut && UpwardWork(s) > 0
    ensures Upward(UpwardLabel(s)) && Enabled(k, s, UpwardLabel(s)) && Clean(s, UpwardLabel(s))
  {
  }

  lemma DownwardReady(k: Kind, s: System)
    requires !s.cut && DownwardWork(s) > 0
    ensures Downward(DownwardLabel(s)) && Enabled(k, s, DownwardLabel(s)) && Clean(s, DownwardLabel(s))
  {
  }

  /** Everything the client submitted can be brought to the server. */
  lemma {:induction false} DrainUp(k: Kind, s: System) returns (ls: seq<Label>)
    requires Live(k, s)
    ensures (forall l <- ls :: Upward(l)) && Allowed(k, s, ls)
    ensures var s' := After(k, s, ls);
            Live(k, s') && UpwardOnly(s, s') && UpwardWork(s') == 0
    decreases UpwardWork(s)
  {
    ls := [];
    if UpwardWork(s) > 0 {
      var l := UpwardLabel(s);
      UpwardReady(k, s);
      UpwardLive(k, s, l);
      UpwardWorkStep(k, s, l);
      ls := DrainUp(k, Step(k, s, l));
      Prepend(k, s, l, ls);
      ls := [l] + ls;
    }
  }

  /** Everything the server submitted can be brought to the client. */
  lemma {:induction false} DrainDown(k: Kind, s: System) returns (ls: seq<Label>)
    requires Live(k, s)
    ensures (forall l <- ls :: Downward(l)) && Allowed(k, s, ls)
    ensures var s' := After(k, s, ls);
            Live(k, s') && DownwardOnly(s, s') && DownwardWork(s') == 0
    decreases DownwardWork(s)
  {
    ls := [];
    if DownwardWork(s) > 0 {
      var l := DownwardLabel(s);
      DownwardReady(k, s);
      DownwardLive(k, s, l);
      DownwardWorkStep(k, s, l);
      ls := DrainDown(k, Step(k, s, l));
      Prepend(k, s, l, ls);
      ls := [l] + ls;
    }
  }

  // --- The answer of a call that is over -------------------------------------------------------

  /** What is left to do until a call that is over is answered. */
  function AnswerWork(s: System): nat {
    |s.down.control| + |s.down.call| + if s.server.end.replacing then 2 else 0
  }

  predicate Answers(l: Label) { l == SReplace || l == TransmitDown }

  /** The terminal frame is on the wire, after everything else. */
  predicate Answered(s: System) {
    s.server.end.final.Some? && s.down.sent == |s.down.log| && s.down.call == []
  }

  /** Once a call is over its server hands nothing to the writer but the replacement of its answer. */
  lemma OverIsSilent(k: Kind, s: System, l: Label)
    requires Enabled(k, s, l) && ServerAlone(l) && s.server.end.fate != Running && l != SReplace
    ensures var t := TurnOf(k, s, l);
            t.frame.None? && t.server.end.replacing == s.server.end.replacing && t.server.end.fate == s.server.end.fate
  {
  }

  lemma OverReceives(k: Kind, v: Server, b: Body, valid: bool, decision: Decision)
    requires v.end.fate != Running
    ensures var t := ServerReceive(k, v, b, valid, decision);
            t.frame.None? && t.server.end == v.end
  {
  }

  lemma WritersBringAnswer(k: Kind, s: System, l: Label)
    requires Enabled(k, s, l) && (l.TransmitUp? || l.TransmitDown? || l.Cut?)
    ensures AnswerWork(Step(k, s, l)) <= AnswerWork(s)
    ensures l.TransmitDown? ==> AnswerWork(Step(k, s, l)) < AnswerWork(s)
  {
  }

  lemma ReceivingKeepsAnswer(k: Kind, s: System, l: Label)
    requires Enabled(k, s, l) && (l.SReceive? || l.CReceive?) && s.server.end.fate != Running
    ensures AnswerWork(Step(k, s, l)) == AnswerWork(s)
  {
    if l.SReceive? {
      OverReceives(k, s.server, s.toServer[0], l.valid, l.decision);
    }
  }

  lemma ReplacingBringsAnswer(s: System)
    requires s.server.end.replacing
    ensures AnswerWork(ByServer(s, ServerReplace(s.server))) < AnswerWork(s)
  {
  }

  /** No step puts the answer off, and each step of its own brings it nearer. */
  lemma AnswerNotPutOff(k: Kind, s: System, l: Label)
    requires Enabled(k, s, l) && s.server.end.fate != Running
    ensures AnswerWork(Step(k, s, l)) <= AnswerWork(s)
    ensures Answers(l) ==> AnswerWork(Step(k, s, l)) < AnswerWork(s)
  {
    if l == SReplace {
      ReplacingBringsAnswer(s);
    } else if ServerAlone(l) {
      OverIsSilent(k, s, l);
      TurnOfStep(k, s, l);
    } else if ClientAlone(l) {
      ClientTurnStep(k, s, l);
    } else if l.SReceive? || l.CReceive? {
      ReceivingKeepsAnswer(k, s, l);
    } else {
      WritersBringAnswer(k, s, l);
    }
  }

  /** As long as a call that is over is not answered, one of these steps can be taken. */
  lemma AnswerEnabled(k: Kind, s: System)
    requires Answering(s) && !s.cut && s.server.end.fate != Running && !Answered(s)
    ensures Enabled(k, s, SReplace) || Enabled(k, s, TransmitDown)
  {
    if s.server.end.final.Some? && s.down.sent < |s.down.log| {
      assert CanTransmit(s.down);
    }
  }

  lemma InvIsAnswering(k: Kind, s: System)
    requires Inv(k, s)
    ensures Answering(s)
  {
    InvAnswering(k, s.server, s.down, s.cut, s);
  }

  lemma OverStaysOver(k: Kind, s: System, l: Label)
    requires Enabled(k, s, l) && Answers(l) && s.server.end.fate != Running && !s.cut
    ensures Step(k, s, l).server.end.fate == s.server.end.fate && !Step(k, s, l).cut && Clean(s, l)
  {
  }

  /** Replacing a refused answer and writing what is queued answer a call that is over. */
  lemma {:induction false} AnswerReached(k: Kind, s: System) returns (ls: seq<Label>)
    requires Inv(k, s) && !s.cut && s.server.end.fate != Running
    ensures (forall l <- ls :: Answers(l)) && Allowed(k, s, ls)
    ensures Answered(After(k, s, ls)) && !After(k, s, ls).cut
    decreases AnswerWork(s)
  {
    ls := [];
    if !Answered(s) {
      InvIsAnswering(k, s);
      AnswerEnabled(k, s);
      var l := if Enabled(k, s, SReplace) then SReplace else TransmitDown;
      OverStaysOver(k, s, l);
      StepInv(k, s, l);
      AnswerNotPutOff(k, s, l);
      ls := AnswerReached(k, Step(k, s, l));
      Prepend(k, s, l, ls);
      ls := [l] + ls;
    }
  }

  /** A run goes on with steps that its last state allows. */
  lemma {:induction false} ExtendRun(k: Kind, states: seq<System>, labels: seq<Label>, ls: seq<Label>)
    returns (states': seq<System>)
    requires IsRun(k, states, labels) && Allowed(k, states[|labels|], ls)
    ensures IsRun(k, states', labels + ls) && states <= states'
    ensures states'[|labels + ls|] == After(k, states[|labels|], ls)
    decreases ls
  {
    if ls == [] {
      states' := states;
      assert labels + ls == labels;
    } else {
      var next := Step(k, states[|labels|], ls[0]);
      OneMoreStep(k, states, labels, ls[0]);
      states' := ExtendRun(k, states + [next], labels + [ls[0]], ls[1..]);
      assert labels + ls == (labels + [ls[0]]) + ls[1..];
    }
  }

  lemma OneMoreStep(k: Kind, states: seq<System>, labels: seq<Label>, l: Label)
    requires IsRun(k, states, labels) && Enabled(k, states[|labels|], l) && Clean(states[|labels|], l)
    ensures IsRun(k, states + [Step(k, states[|labels|], l)], labels + [l])
  {
  }

  /**
   * While the connection is up, a call that is over is answered: from every
   * state of every run the server's own steps lead to one at which exactly one
   * terminal frame was sent, after everything else. `AnswerNotPutOff` says that
   * no other step can delay them.
   */
  lemma AnswerComes(k: Kind, states: seq<System>, labels: seq<Label>)
    returns (states': seq<System>, ls: seq<Label>)
    requires IsRun(k, states, labels)
    requires !states[|labels|].cut && states[|labels|].server.end.fate != Running
    ensures (forall l <- ls :: Answers(l)) && IsRun(k, states', labels + ls) && states <= states'
    ensures var t := Traffic(states', labels + ls);
            t != [] && forall i :: 0 <= i < |t| ==> (IsTerminal(t[i]) <==> i == |t| - 1)
  {
    RunInv(k, states, labels, |labels|);
    ls := AnswerReached(k, states[|labels|]);
    states' := ExtendRun(k, states, labels, ls);
    AnsweredTraffic(k, states', labels + ls);
  }

  lemma AnsweredTraffic(k: Kind, states: seq<System>, labels: seq<Label>)
    requires IsRun(k, states, labels) && Answered(states[|labels|])
    ensures var t := Traffic(states, labels);
            t != [] && forall i :: 0 <= i < |t| ==> (IsTerminal(t[i]) <==> i == |t| - 1)
  {
    AnsweredOnce(k, states, labels);
    TrafficIsLog(k, states, labels);
    RunAnswering(k, states, labels, |labels|);
  }

  // --- A reader keeps its writer going --------------------------------------------------------

  /** Nothing is under way in either direction. */
  predicate Quiet(s: System) { UpwardWork(s) == 0 && DownwardWork(s) == 0 }

  /** The handler's output waits for credit. */
  predicate OutputBlocked(s: System) {
    s.server.output.busy.AwaitCredit? && s.server.output.window.served < s.server.output.window.issued
  }

  /** A send of the client waits for credit. */
  predicate InputBlocked(s: System) {
    !s.client.input.closed && s.client.input.continued == s.client.input.window.served < |s.client.input.requests|
  }

  /**
   * When the output is blocked and nothing is under way, the client holds
   * exactly as many items, unread or read without going on, as the initial credit.
   */
  lemma BlockedOutputIsFull(k: Kind, s: System)
    requires Live(k, s) && s.client.ready && k.HasOutput() && Quiet(s) && OutputBlocked(s)
    ensures Held(s.client.output) == INITIAL_STREAM_CREDIT && !s.client.output.ended
    ensures s.client.output.allowance == 0
  {
  }

  lemma BlockedInputIsFull(k: Kind, s: System)
    requires Live(k, s) && k.HasInput() && s.client.ready && Quiet(s) && InputBlocked(s)
    ensures Held(s.server.input) == INITIAL_STREAM_CREDIT && !s.server.input.ended && s.server.accepted
    ensures s.server.input.allowance == 0
  {
  }

  /** Reading on the client, and deliveries. */
  predicate ClientReading(l: Label) { l.CNext? || l.CResume? || Upward(l) || Downward(l) }

  predicate ServerReading(l: Label) { l.SNext? || l.SResume? || Upward(l) || Downward(l) }

  lemma LiveStep(k: Kind, s: System, l: Label)
    requires Live(k, s) && Enabled(k, s, l) && (l.CNext? || l.CResume? || l.SNext? || l.SResume?)
    ensures Live(k, Step(k, s, l))
  {
    StepInv(k, s, l);
    CallHasNoCancel(k, s);
    NoCancelStep(k, s, l);
  }

  ghost predicate OutputGranted(s: System, s': System) {
    s'.server == s.server.(output := s.server.output.(window := s.server.output.window.Grant(1)))
  }

  ghost predicate InputGranted(s: System, s': System) {
    s'.client == s.client.(input := s.client.input.(window := s.client.input.window.Grant(1)))
  }

  lemma OneStep(k: Kind, s: System, l: Label)
    requires Enabled(k, s, l) && Clean(s, l)
    ensures Allowed(k, s, [l]) && After(k, s, [l]) == Step(k, s, l)
  {
    Prepend(k, s, l, []);
  }

  lemma ServerTakesGrant(k: Kind, s: System) returns (ls: seq<Label>)
    requires Live(k, s) && k.HasOutput() && s.server.accepted && s.toServer == [Body.Window(FromServer, 1)]
    ensures (forall l <- ls :: Upward(l)) && Allowed(k, s, ls)
    ensures Live(k, After(k, s, ls)) && OutputGranted(s, After(k, s, ls))
  {
    UpwardLive(k, s, SReceive(true, Accept));
    OneStep(k, s, SReceive(true, Accept));
    ls := [SReceive(true, Accept)];
  }

  lemma OutputGrantArrives(k: Kind, s: System) returns (ls: seq<Label>)
    requires Live(k, s) && k.HasOutput() && s.server.accepted
    requires s.toServer == [] && s.up.control == [Body.Window(FromServer, 1)]
    ensures (forall l <- ls :: Upward(l)) && Allowed(k, s, ls)
    ensures Live(k, After(k, s, ls)) && OutputGranted(s, After(k, s, ls))
  {
    UpwardLive(k, s, TransmitUp);
    ls := ServerTakesGrant(k, Step(k, s, TransmitUp));
    Prepend(k, s, TransmitUp, ls);
    ls := [TransmitUp] + ls;
  }

  lemma ClientResumeGrants(k: Kind, s: System)
    requires s.client.fate == Running && k.HasOutput() && !s.client.output.ended
    requires s.client.output.regranted < s.client.output.queue.taken && s.up.control == []
    ensures Enabled(k, s, CResume)
    ensures var s' := Step(k, s, CResume);
            s'.up.control == [Body.Window(FromServer, 1)] && s'.server == s.server && s'.toServer == s.toServer
  {
  }

  /** A client that holds items goes on: a grant reaches the server. */
  lemma ClientGrants(k: Kind, s: System) returns (ls: seq<Label>)
    requires Live(k, s) && s.client.ready && k.HasOutput() && !s.client.output.ended
    requires s.client.output.regranted < s.client.output.queue.taken
    requires UpwardWork(s) == 0 && s.server.accepted
    ensures (forall l <- ls :: ClientReading(l)) && Allowed(k, s, ls)
    ensures Live(k, After(k, s, ls)) && OutputGranted(s, After(k, s, ls))
  {
    ClientResumeGrants(k, s);
    LiveStep(k, s, CResume);
    ls := OutputGrantArrives(k, Step(k, s, CResume));
    Prepend(k, s, CResume, ls);
    ls := [CResume] + ls;
  }

  lemma GrantTaken(k: Kind, s: System)
    requires s.client.fate == Running && k.HasInput() && s.toClient == [Body.Window(FromClient, 1)]
    ensures Enabled(k, s, CReceive(true)) && InputGranted(s, Step(k, s, CReceive(true)))
  {
  }

  lemma ClientTakesGrant(k: Kind, s: System) returns (ls: seq<Label>)
    requires Live(k, s) && k.HasInput() && s.toClient == [Body.Window(FromClient, 1)]
    ensures (forall l <- ls :: Downward(l)) && Allowed(k, s, ls)
    ensures Live(k, After(k, s, ls)) && InputGranted(s, After(k, s, ls))
  {
    GrantTaken(k, s);
    DownwardLive(k, s, CReceive(true));
    OneStep(k, s, CReceive(true));
    ls := [CReceive(true)];
  }

  lemma TransmitGrant(k: Kind, s: System)
    requires !s.cut && s.toClient == [] && s.down.control == [Body.Window(FromClient, 1)]
    ensures Enabled(k, s, TransmitDown)
    ensures var s' := Step(k, s, TransmitDown); s'.toClient == [Body.Window(FromClient, 1)] && s'.client == s.client
  {
  }

  lemma InputGrantArrives(k: Kind, s: System) returns (ls: seq<Label>)
    requires Live(k, s) && k.HasInput()
    requires s.toClient == [] && s.down.control == [Body.Window(FromClient, 1)]
    ensures (forall l <- ls :: Downward(l)) && Allowed(k, s, ls)
    ensures Live(k, After(k, s, ls)) && InputGranted(s, After(k, s, ls))
  {
    TransmitGrant(k, s);
    DownwardLive(k, s, TransmitDown);
    ls := ClientTakesGrant(k, Step(k, s, TransmitDown));
    Prepend(k, s, TransmitDown, ls);
    ls := [TransmitDown] + ls;
  }

  lemma ResumeGrants(k: Kind, s: System)
    requires s.server.end.fate == Running && k.HasInput() && !s.server.input.ended
    requires s.server.input.regranted < s.server.input.queue.taken && s.down.control == []
    ensures Enabled(k, s, SResume)
    ensures var s' := Step(k, s, SResume);
            s'.down.control == [Body.Window(FromClient, 1)] && s'.client == s.client && s'.toClient == s.toClient
  {
  }

  lemma ServerGrants(k: Kind, s: System) returns (ls: seq<Label>)
    requires Live(k, s) && s.server.accepted && k.HasInput() && !s.server.input.ended
    requires s.server.input.regranted < s.server.input.queue.taken
    requires DownwardWork(s) == 0
    ensures (forall l <- ls :: ServerReading(l)) && Allowed(k, s, ls)
    ensures Live(k, After(k, s, ls)) && InputGranted(s, After(k, s, ls))
  {
    ResumeGrants(k, s);
    LiveStep(k, s, SResume);
    ls := InputGrantArrives(k, Step(k, s, SResume));
    Prepend(k, s, SResume, ls);
    ls := [SResume] + ls;
  }

  lemma NextTakes(k: Kind, s: System)
    requires s.client.ready && k.HasOutput() && s.client.output.queue.taken < |s.client.output.queue.pushed|
    ensures Enabled(k, s, CNext)
    ensures var s' := Step(k, s, CNext);
            && s' == s.(client := s'.client)
            && s'.client == s.client.(output := s.client.output.(queue := s'.client.output.queue))
            && s'.client.output.queue.taken == s.client.output.queue.taken + 1
  {
  }

  lemma HandlerTakes(k: Kind, s: System)
    requires s.server.accepted && s.server.end.fate == Running && k.HasInput()
    requires s.server.input.queue.taken < |s.server.input.queue.pushed|
    requires s.server.input.queue.asked == s.server.input.regranted
    ensures Enabled(k, s, SNext)
    ensures var s' := Step(k, s, SNext);
            && s' == s.(server := s'.server)
            && s'.server == s.server.(input := s.server.input.(queue := s'.server.input.queue))
            && s'.server.input.queue.taken == s.server.input.queue.taken + 1
  {
  }

  /** A client that holds items has one in hand, or can take one. */
  lemma ConsumerReads(k: Kind, s: System) returns (ls: seq<Label>)
    requires Live(k, s) && s.client.ready && k.HasOutput() && Quiet(s) && OutputBlocked(s)
    ensures (forall l <- ls :: ClientReading(l)) && Allowed(k, s, ls)
    ensures Live(k, After(k, s, ls)) && OutputGranted(s, After(k, s, ls))
  {
    BlockedOutputIsFull(k, s);
    if s.client.output.regranted < s.client.output.queue.taken {
      ls := ClientGrants(k, s);
    } else {
      NextTakes(k, s);
      LiveStep(k, s, CNext);
      ls := ClientGrants(k, Step(k, s, CNext));
      Prepend(k, s, CNext, ls);
      ls := [CNext] + ls;
    }
  }

  lemma HandlerReads(k: Kind, s: System) returns (ls: seq<Label>)
    requires Live(k, s) && s.client.ready && k.HasInput() && Quiet(s) && InputBlocked(s)
    ensures (forall l <- ls :: ServerReading(l)) && Allowed(k, s, ls)
    ensures Live(k, After(k, s, ls)) && InputGranted(s, After(k, s, ls))
  {
    BlockedInputIsFull(k, s);
    if s.server.input.regranted < s.server.input.queue.taken {
      ls := ServerGrants(k, s);
    } else {
      HandlerTakes(k, s);
      LiveStep(k, s, SNext);
      ls := ServerGrants(k, Step(k, s, SNext));
      Prepend(k, s, SNext, ls);
      ls := [SNext] + ls;
    }
  }

  /** Deliver whatever is under way. */
  lemma Drain(k: Kind, s: System) returns (ls: seq<Label>)
    requires Live(k, s)
    ensures (forall l <- ls :: Upward(l) || Downward(l)) && Allowed(k, s, ls)
    ensures var s' := After(k, s, ls);
            && Live(k, s') && Quiet(s') && s'.client.ready == s.client.ready
            && s'.server.output == s.server.output.(window := s'.server.output.window)
            && s'.server.output.window.issued == s.server.output.window.issued
            && s'.client.input == s.client.input.(window := s'.client.input.window)
            && s'.client.input.window.issued == s.client.input.window.issued
  {
    var up := DrainUp(k, s);
    var down := DrainDown(k, After(k, s, up));
    AfterConcat(k, s, up, down);
    ls := up + down;
  }

  /**
   * No credit deadlock, output: whatever the state, a handler that waits for
   * credit gets it once the frames under way are delivered and the consumer reads.
   */
  lemma OutputUnblocks(k: Kind, s: System) returns (ls: seq<Label>)
    requires Live(k, s) && s.client.ready && k.HasOutput() && s.server.output.busy.AwaitCredit?
    ensures (forall l <- ls :: ClientReading(l)) && Allowed(k, s, ls)
    ensures Live(k, After(k, s, ls)) && Enabled(k, After(k, s, ls), SContinue(false))
  {
    ls := Drain(k, s);
    var s1 := After(k, s, ls);
    if OutputBlocked(s1) {
      var more := ConsumerReads(k, s1);
      GrantUnblocks(k, s1, After(k, s1, more));
      AfterConcat(k, s, ls, more);
      ls := ls + more;
    } else {
      FreeOutput(k, s1);
    }
  }

  /** No credit deadlock, input: the same for a client whose send waits. */
  lemma InputUnblocks(k: Kind, s: System) returns (ls: seq<Label>)
    requires Live(k, s) && s.client.ready && k.HasInput() && !s.client.input.closed
    requires s.client.input.continued < |s.client.input.requests|
    ensures (forall l <- ls :: ServerReading(l)) && Allowed(k, s, ls)
    ensures Live(k, After(k, s, ls)) && Enabled(k, After(k, s, ls), CContinue(false))
  {
    ls := Drain(k, s);
    var s1 := After(k, s, ls);
    if InputBlocked(s1) {
      var more := HandlerReads(k, s1);
      GrantUnblocksInput(k, s1, After(k, s1, more));
      AfterConcat(k, s, ls, more);
      ls := ls + more;
    } else {
      FreeInput(k, s1);
    }
  }

  lemma GrantUnblocks(k: Kind, s: System, s': System)
    requires Live(k, s) && OutputBlocked(s) && OutputGranted(s, s')
    ensures Enabled(k, s', SContinue(false))
  {
  }

  lemma FreeOutput(k: Kind, s: System)
    requires Live(k, s) && s.server.output.busy.AwaitCredit? && !OutputBlocked(s)
    ensures Enabled(k, s, SContinue(false))
  {
  }

  lemma GrantUnblocksInput(k: Kind, s: System, s': System)
    requires Live(k, s) && InputBlocked(s) && InputGranted(s, s')
    ensures Enabled(k, s', CContinue(false))
  {
  }

  lemma FreeInput(k: Kind, s: System)
    requires Live(k, s) && !InputBlocked(s) && !s.client.input.closed
    requires s.client.input.continued < |s.client.input.requests|
    ensures Enabled(k, s, CContinue(false))
  {
  }

  // --- When a send breaks the protocol -----------------------------------------------------------

  /** `s` with one more frame at the end of what the client has to send. */
  ghost function Late(s: System, c: Client, item: Body): System {
    s.(client := c, up := s.up.(call := s.up.call + [item], log := s.up.log + [item]))
  }

  /** Deliveries to the server do not notice a frame at the end of the queue. */
  lemma LateStep(k: Kind, s: System, c: Client, item: Body, l: Label)
    requires Upward(l) && Enabled(k, s, l)
    ensures Enabled(k, Late(s, c, item), l) && Clean(Late(s, c, item), l)
    ensures Step(k, Late(s, c, item), l) == Late(Step(k, s, l), c, item)
  {
  }

  /** Once everything else is delivered, an item after the end is a fault. */
  lemma LateItemArrives(k: Kind, s: System, c: Client, item: Body) returns (ls: seq<Label>)
    requires !s.cut && UpwardWork(s) == 0 && k.HasInput() && item.Item? && item.direction == FromClient
    requires s.server.accepted && s.server.end.fate == Running && !s.server.end.removed && s.server.input.ended
    ensures Allowed(k, Late(s, c, item), ls)
    ensures After(k, Late(s, c, item), ls).server.end.fate == Fate.Protocol
  {
    var s0 := Late(s, c, item);
    assert s0.up.call == [item];
    var s1 := Step(k, s0, TransmitUp);
    assert s1.toServer == [item];
    OneStep(k, s1, SReceive(true, Accept));
    Prepend(k, s0, TransmitUp, [SReceive(true, Accept)]);
    ls := [TransmitUp] + [SReceive(true, Accept)];
  }

  lemma EndArrived(k: Kind, s: System)
    requires Live(k, s) && s.client.ready && s.client.input.closed && UpwardWork(s) == 0
    ensures s.server.accepted && s.server.input.ended && !s.server.end.removed
  {
  }

  lemma {:induction false} LateItemFaults(k: Kind, s: System, c: Client, item: Body) returns (ls: seq<Label>)
    requires Live(k, s) && s.client.ready && s.client.input.closed
    requires k.HasInput() && item.Item? && item.direction == FromClient
    ensures Allowed(k, Late(s, c, item), ls)
    ensures After(k, Late(s, c, item), ls).server.end.fate == Fate.Protocol
    decreases UpwardWork(s)
  {
    if UpwardWork(s) == 0 {
      EndArrived(k, s);
      ls := LateItemArrives(k, s, c, item);
    } else {
      var l := UpwardLabel(s);
      UpwardReady(k, s);
      UpwardLive(k, s, l);
      UpwardWorkStep(k, s, l);
      LateStep(k, s, c, item, l);
      ls := LateItemFaults(k, Step(k, s, l), c, item);
      Prepend(k, Late(s, c, item), l, ls);
      ls := [l] + ls;
    }
  }

  /**
   * `sendInput` does not look again at `closed` after waiting for its credit.
   * Letting a send go on is safe, whatever happens next, exactly when the input
   * has not been closed meanwhile.
   */
  lemma SendIsSafeIffOpen(k: Kind, s: System)
    requires Live(k, s) && s.client.ready && Enabled(k, s, CContinue(false))
    ensures !s.client.input.closed <==>
            forall ls :: Allowed(k, Step(k, s, CContinue(false)), ls) ==>
              NoFaultAt(After(k, Step(k, s, CContinue(false)), ls))
  {
    var s' := Step(k, s, CContinue(false));
    if s.client.input.closed {
      InputKind(k, s);
      var t := ClientContinue(s.client, false);
      var ls := LateItemFaults(k, s, t.client, t.frame.value);
      assert s' == Late(s, t.client, t.frame.value);
      assert !NoFaultAt(After(k, s', ls));
    } else {
      StepInv(k, s, CContinue(false));
      forall ls | Allowed(k, s', ls) ensures NoFaultAt(After(k, s', ls)) {
        AfterInv(k, s', ls);
      }
    }
  }

  ghost predicate NoFaultAt(s: System) { NoFault(s.client, s.server) }

  lemma InputKind(k: Kind, s: System)
    requires Live(k, s) && s.client.input.closed
    ensures k.HasInput()
  {
  }

  lemma RunLive(k: Kind, states: seq<System>, labels: seq<Label>, n: nat)
    requires IsRun(k, states, labels) && n <= |labels|
    requires !states[n].cut && states[n].client.fate == Running && states[n].server.end.fate == Running
    ensures Live(k, states[n])
  {
    RunInv(k, states, labels, n);
    RunNoCancel(k, states, labels, n);
  }

  lemma {:induction false} RunNoCancel(k: Kind, states: seq<System>, labels: seq<Label>, n: nat)
    requires IsRun(k, states, labels) && n <= |labels|
    ensures NoCancel(states[n])
  {
    if n > 0 {
      RunNoCancel(k, states, labels, n - 1);
      NextNoCancel(k, states, labels, n - 1);
    }
  }

  lemma NextNoCancel(k: Kind, states: seq<System>, labels: seq<Label>, n: nat)
    requires IsRun(k, states, labels) && n < |labels| && NoCancel(states[n])
    ensures NoCancel(states[n + 1])
  {
    RunInv(k, states, labels, n);
    CallHasNoCancel(k, states[n]);
    NoCancelStep(k, states[n], labels[n]);
  }

  /** The client is through with its input, but one send waits for the first credit. */
  predicate Hasty(s: System) {
    && s.client.ready && s.client.fate == Running && s.client.input.closed && s.client.input.continued == 0
    && |s.client.input.requests| == 1
    && FreshWindow(s.client.input.window.(issued := 0)) && s.client.input.window.issued == 1
    && s.toServer == [Open] && !s.cut
    && !s.server.accepted && s.server.end.fate == Running
    && s.down.control == [] && s.down.call == [] && s.toClient == []
  }

  lemma HastyClose(s: System, v: Payload)
    requires IsStart(s)
    ensures Allowed(Duplex, s, [TransmitUp, COpened, CSend(v), CCloseInput])
    ensures Hasty(After(Duplex, s, [TransmitUp, COpened, CSend(v), CCloseInput]))
  {
    var s1 := Step(Duplex, s, TransmitUp);
    var s2 := Step(Duplex, s1, COpened);
    var s3 := Step(Duplex, s2, CSend(v));
    OneStep(Duplex, s3, CCloseInput);
    Prepend(Duplex, s2, CSend(v), [CCloseInput]);
    Prepend(Duplex, s1, COpened, [CSend(v), CCloseInput]);
    Prepend(Duplex, s, TransmitUp, [COpened, CSend(v), CCloseInput]);
  }

  /** The first grant is on its way to such a client. */
  predicate HastyGranted(s: System) {
    && s.client.ready && s.client.fate == Running && s.client.input.closed && s.client.input.continued == 0
    && |s.client.input.requests| == 1
    && FreshWindow(s.client.input.window.(issued := 0)) && s.client.input.window.issued == 1
    && s.down.control == [Body.Window(FromClient, INITIAL_STREAM_CREDIT)] && s.toClient == [] && !s.cut
    && s.server.end.fate == Running
  }

  lemma HastyOpen(s: System)
    requires Hasty(s)
    ensures Enabled(Duplex, s, SReceive(true, Accept)) && HastyGranted(Step(Duplex, s, SReceive(true, Accept)))
  {
  }

  lemma HastyCredit(s: System)
    requires HastyGranted(s)
    ensures var ls := [TransmitDown, CReceive(true)];
            && Allowed(Duplex, s, ls)
            && var s' := After(Duplex, s, ls);
               && Enabled(Duplex, s', CContinue(false)) && s'.client.input.closed && s'.client.ready && !s'.cut
               && s'.client.fate == Running && s'.server.end.fate == Running
  {
    var s1 := Step(Duplex, s, TransmitDown);
    assert s1.toClient == [Body.Window(FromClient, INITIAL_STREAM_CREDIT)];
    OneStep(Duplex, s1, CReceive(true));
    Prepend(Duplex, s, TransmitDown, [CReceive(true)]);
  }

  lemma HastyGrant(s: System)
    requires Hasty(s)
    ensures var ls := [SReceive(true, Accept), TransmitDown, CReceive(true)];
            && Allowed(Duplex, s, ls)
            && var s' := After(Duplex, s, ls);
               && Enabled(Duplex, s', CContinue(false)) && s'.client.input.closed && s'.client.ready && !s'.cut
               && s'.client.fate == Running && s'.server.end.fate == Running
  {
    HastyOpen(s);
    HastyCredit(Step(Duplex, s, SReceive(true, Accept)));
    Prepend(Duplex, s, SReceive(true, Accept), [TransmitDown, CReceive(true)]);
  }

  /** Such a send does occur: one is made before the first credit, and the input is closed before that comes. */
  lemma HastyCloseOccurs(s: System, v: Payload) returns (ls: seq<Label>)
    requires IsStart(s)
    ensures Allowed(Duplex, s, ls)
    ensures var s' := After(Duplex, s, ls);
            Live(Duplex, s') && s'.client.ready && s'.client.input.closed && Enabled(Duplex, s', CContinue(false))
  {
    var first := [TransmitUp, COpened, CSend(v), CCloseInput];
    var rest := [SReceive(true, Accept), TransmitDown, CReceive(true)];
    HastyClose(s, v);
    HastyGrant(After(Duplex, s, first));
    AfterConcat(Duplex, s, first, rest);
    ls := first + rest;
    StartInv(Duplex, s);
    AfterInv(Duplex, s, ls);
    AfterNoCancel(Duplex, s, ls);
  }

  lemma {:induction false} AfterNoCancel(k: Kind, s: System, ls: seq<Label>)
    requires Inv(k, s) && NoCancel(s) && Allowed(k, s, ls)
    ensures NoCancel(After(k, s, ls))
    decreases ls
  {
    if ls != [] {
      StepInv(k, s, ls[0]);
      CallHasNoCancel(k, s);
      NoCancelStep(k, s, ls[0]);
      AfterNoCancel(k, Step(k, s, ls[0]), ls[1..]);
    }
  }
}
