/**
 * A call whose handler is through completes: writing, finishing and delivering
 * are enough, whatever happened before.
 */
module StreamCompletion {

  import opened Protocol
  import opened Stream
  import opened StreamInvariant
  import opened StreamReceive
  import opened StreamSteps
  import opened StreamTheorems
  import opened StreamProgress

  // --- A handler that is through has asked for the end of its output -------------------------------

  ghost predicate AsksEnd(k: Kind, v: Server) {
    k.HasOutput() && v.handlerDone && v.end.fate == Running ==> v.output.closed || CloseOutput in v.output.todo
  }

  lemma TurnAsksEnd(k: Kind, s: System, l: Label)
    requires AsksEnd(k, s.server) && Enabled(k, s, l) && ServerAlone(l)
    ensures AsksEnd(k, TurnOf(k, s, l).server)
  {
    var todo := s.server.output.todo;
    assert todo != [] ==> todo == [todo[0]] + todo[1..];
  }

  lemma ReceiveAsksEnd(k: Kind, v: Server, b: Body, valid: bool, decision: Decision)
    requires AsksEnd(k, v)
    ensures AsksEnd(k, ServerReceive(k, v, b, valid, decision).server)
  {
  }

  lemma StepAsksEnd(k: Kind, s: System, l: Label)
    requires AsksEnd(k, s.server) && Enabled(k, s, l)
    ensures AsksEnd(k, Step(k, s, l).server)
  {
    if ServerAlone(l) {
      TurnAsksEnd(k, s, l);
      TurnOfStep(k, s, l);
    } else if l.SReceive? {
      ReceiveAsksEnd(k, s.server, s.toServer[0], l.valid, l.decision);
    } else if ClientAlone(l) {
      ClientTurnStep(k, s, l);
    }
  }

  lemma {:induction false} RunAsksEnd(k: Kind, states: seq<System>, labels: seq<Label>, n: nat)
    requires IsRun(k, states, labels) && n <= |labels|
    ensures AsksEnd(k, states[n].server)
  {
    if n > 0 {
      RunAsksEnd(k, states, labels, n - 1);
      NextAsksEnd(k, states, labels, n - 1);
    }
  }

  lemma NextAsksEnd(k: Kind, states: seq<System>, labels: seq<Label>, n: nat)
    requires IsRun(k, states, labels) && n < |labels| && AsksEnd(k, states[n].server)
    ensures AsksEnd(k, states[n + 1].server)
  {
    StepAsksEnd(k, states[n], labels[n]);
  }

  // --- Winding up -------------------------------------------------------------------------------------

  /** Writing and delivering to the client, and what the server does once its handler is through. */
  predicate Completes(l: Label) {
    l == TransmitDown || l == CReceive(true) || l == SWritten || l == STakeUp(true) || l == SFinish(false)
  }

  /** The handler is through, and no item waits for credit: neither half has failed the call. */
  ghost predicate Winding(k: Kind, s: System) {
    var v := s.server;
    && Inv(k, s) && AsksEnd(k, v) && !s.cut && s.client.fate == Running
    && v.accepted && v.handlerDone && (v.end.fate == Running || v.end.fate == Completed)
    && !v.output.busy.AwaitCredit? && (forall r <- v.output.todo :: r == CloseOutput)
  }

  function WindingWork(s: System): nat {
    8 * |s.server.output.todo| + (if s.server.end.fate == Running then 8 else 0)
    + 2 * (|s.down.control| + |s.down.call|) + |s.toClient|
    + if s.server.output.busy.AwaitWritten? then 1 else 0
  }

  function WindingLabel(s: System): Label {
    if CanTransmit(s.down) then TransmitDown
    else if s.toClient != [] then CReceive(true)
    else if s.server.output.busy.AwaitWritten? then SWritten
    else if s.server.output.todo != [] then STakeUp(true)
    else SFinish(false)
  }

  /** As long as the client has not seen the result, one of these steps can be taken. */
  lemma WindingEnabled(k: Kind, s: System)
    requires Winding(k, s)
    ensures Completes(WindingLabel(s)) && Enabled(k, s, WindingLabel(s)) && Clean(s, WindingLabel(s))
  {
    if !CanTransmit(s.down) && s.toClient == [] {
      NothingUnread(k, s);
    }
  }

  /** When nothing is under way the client has heard all, and a call that it holds open is running. */
  lemma NothingUnread(k: Kind, s: System)
    requires Winding(k, s) && s.down.call == [] && s.toClient == []
    ensures s.server.end.fate == Running && s.down.sent == |s.down.log|
  {
    assert Data(s.toClient) == [];
    assert s.clientGot == |s.down.log|;
  }

  lemma WindingFrame(k: Kind, s: System)
    requires Winding(k, s) && s.toClient != []
    ensures var c' := ClientReceive(k, s.client, s.toClient[0], true);
            c'.fate == Running || c'.fate == Completed || c'.fate == Fate.Protocol
    ensures !s.toClient[0].Error?
  {
    DownHead(k, s);
  }

  /** The state but for the invariants, which every step keeps. */
  ghost predicate WindsUp(s: System) {
    var v := s.server;
    && !s.cut && s.client.fate == Running
    && v.accepted && v.handlerDone && (v.end.fate == Running || v.end.fate == Completed)
    && !v.output.busy.AwaitCredit? && (forall r <- v.output.todo :: r == CloseOutput)
  }

  lemma WindingOwn(k: Kind, s: System, l: Label)
    requires WindsUp(s) && Enabled(k, s, l) && (l == SWritten || l == STakeUp(true) || l == SFinish(false))
    requires l.STakeUp? ==> !s.server.output.busy.AwaitWritten?
    ensures WindsUp(Step(k, s, l)) && WindingWork(Step(k, s, l)) < WindingWork(s)
  {
    var todo := s.server.output.todo;
    assert todo != [] ==> todo[0] in todo && forall r <- todo[1..] :: r in todo;
  }

  lemma WindingTransmit(k: Kind, s: System)
    requires WindsUp(s) && Enabled(k, s, TransmitDown)
    ensures WindsUp(Step(k, s, TransmitDown)) && WindingWork(Step(k, s, TransmitDown)) < WindingWork(s)
  {
  }

  lemma WindingHears(k: Kind, s: System)
    requires Winding(k, s) && s.toClient != [] && Step(k, s, CReceive(true)).client.fate != Fate.Protocol
    ensures var s' := Step(k, s, CReceive(true));
            (WindsUp(s') || s'.client.fate == Completed) && WindingWork(s') < WindingWork(s)
  {
    WindingFrame(k, s);
  }

  lemma WindingStep(k: Kind, s: System)
    requires Winding(k, s) && Enabled(k, s, WindingLabel(s)) && Clean(s, WindingLabel(s))
    ensures var s' := Step(k, s, WindingLabel(s));
            && WindingWork(s') < WindingWork(s)
            && (Winding(k, s') || s'.client.fate == Completed)
  {
    var l := WindingLabel(s);
    StepInv(k, s, l);
    StepAsksEnd(k, s, l);
    if l.CReceive? {
      WindingHears(k, s);
    } else if l.TransmitDown? {
      WindingTransmit(k, s);
    } else {
      WindingOwn(k, s, l);
    }
  }

  /** These steps alone complete the call at the client. */
  lemma {:induction false} CompletionReached(k: Kind, s: System) returns (ls: seq<Label>)
    requires Winding(k, s)
    ensures (forall l <- ls :: Completes(l)) && Allowed(k, s, ls)
    ensures After(k, s, ls).client.fate == Completed
    decreases WindingWork(s)
  {
    var l := WindingLabel(s);
    WindingEnabled(k, s);
    WindingStep(k, s);
    ls := [];
    if Winding(k, Step(k, s, l)) { ls := CompletionReached(k, Step(k, s, l)); }
    Prepend(k, s, l, ls);
    ls := [l] + ls;
  }

  /**
   * Every run in which the handler is through, nothing it sends waits for
   * credit, and both halves are open goes on to one in which the client has the
   * result, and with it every item that the handler sent.
   */
  lemma CallCompletes(k: Kind, states: seq<System>, labels: seq<Label>)
    returns (states': seq<System>, ls: seq<Label>)
    requires IsRun(k, states, labels)
    requires var s := states[|labels|];
             && !s.cut && s.client.fate == Running && s.server.end.fate == Running && s.server.accepted
             && s.server.handlerDone && !s.server.output.busy.AwaitCredit?
             && forall r <- s.server.output.todo :: r == CloseOutput
    ensures (forall l <- ls :: Completes(l)) && IsRun(k, states', labels + ls) && states <= states'
    ensures var s' := states'[|labels + ls|];
            s'.client.fate == Completed && s'.client.output.queue.pushed == s'.server.output.produced
  {
    RunInv(k, states, labels, |labels|);
    RunAsksEnd(k, states, labels, |labels|);
    ls := CompletionReached(k, states[|labels|]);
    states' := ExtendRun(k, states, labels, ls);
    OutputDelivered(k, states', labels + ls, |labels + ls|, |labels + ls|);
  }
}
