/**
 * What the two applications ask of a call, and what becomes of it: reads and
 * sends are taken up one by one, in the order in which they were asked for, and
 * a call completes only when all that its handler asked to send was sent.
 */
module StreamOutput {

  import opened Wrappers
  import opened Protocol
  import opened Flow
  import opened Stream
  import opened StreamInvariant
  import opened StreamSteps
  import opened StreamTheorems

  // --- What was asked, as far as the labels tell -------------------------------------------------

  /** What the handler asked of its output; one that returns asks for the end. */
  function Asked(k: Kind, labels: seq<Label>): seq<Request> {
    if labels == [] then []
    else
      var l := labels[|labels| - 1];
      Asked(k, labels[..|labels| - 1])
      + (if l.SAsk? then [l.r] else if l.SReturn? && k.HasOutput() then [CloseOutput] else [])
  }

  /** How many of the requests were taken up. */
  function TakenUp(labels: seq<Label>): nat {
    if labels == [] then 0
    else TakenUp(labels[..|labels| - 1]) + if labels[|labels| - 1].STakeUp? then 1 else 0
  }

  function ConsumerReads(labels: seq<Label>): nat {
    if labels == [] then 0
    else ConsumerReads(labels[..|labels| - 1]) + if labels[|labels| - 1].CNext? then 1 else 0
  }

  function HandlerReads(labels: seq<Label>): nat {
    if labels == [] then 0
    else HandlerReads(labels[..|labels| - 1]) + if labels[|labels| - 1].SNext? then 1 else 0
  }

  /** The values that callers sent while the input was open, and those the handler's taken-up requests chose. */
  datatype History = History(sent: seq<Payload>, chosen: seq<Payload>)

  /** The item that the step takes up, if the call runs, its output is open, and the item is valid. */
  function Chosen(k: Kind, s: System, before: seq<Label>, l: Label): seq<Payload> {
    var n := TakenUp(before);
    if l.STakeUp? && l.valid && n < |Asked(k, before)| && Asked(k, before)[n].SendItem?
       && s.server.end.fate == Running && !s.server.output.closed
    then [Asked(k, before)[n].v] else []
  }

  /** The item that took credit or waits for it, not yet submitted. */
  function Pending(v: Server): seq<Payload> { if v.output.busy.AwaitCredit? then [v.output.busy.v] else [] }

  /** The two halves are as their applications' requests have it. */
  ghost predicate AsAsked(k: Kind, s: System, labels: seq<Label>, h: History) {
    var o := s.server.output;
    && s.client.input.requests == h.sent
    && s.client.output.queue.asked == ConsumerReads(labels)
    && s.server.input.queue.asked == HandlerReads(labels)
    && TakenUp(labels) <= |Asked(k, labels)| && o.todo == Asked(k, labels)[TakenUp(labels)..]
    && o.produced <= h.chosen
    && (s.server.end.fate == Running ==> h.chosen == o.produced + Pending(s.server))
    && (s.server.end.fate == Completed ==> h.chosen == o.produced)
  }

  lemma LabelsSnoc(k: Kind, labels: seq<Label>, l: Label)
    ensures Asked(k, labels + [l]) ==
            Asked(k, labels) + (if l.SAsk? then [l.r] else if l.SReturn? && k.HasOutput() then [CloseOutput] else [])
    ensures TakenUp(labels + [l]) == TakenUp(labels) + if l.STakeUp? then 1 else 0
    ensures ConsumerReads(labels + [l]) == ConsumerReads(labels) + if l.CNext? then 1 else 0
    ensures HandlerReads(labels + [l]) == HandlerReads(labels) + if l.SNext? then 1 else 0
  {
    assert (labels + [l])[..|labels|] == labels;
  }

  function After(k: Kind, s: System, labels: seq<Label>, h: History, l: Label): History {
    History(h.sent + (if l.CSend? && !s.client.input.closed then [l.v] else []), h.chosen + Chosen(k, s, labels, l))
  }

  // --- One step ------------------------------------------------------------------------------------

  /** What the client's applications asked. */
  ghost predicate ClientAsked(s: System, s': System, l: Label) {
    && s'.client.input.requests == s.client.input.requests + (if l.CSend? && !s.client.input.closed then [l.v] else [])
    && s'.client.output.queue.asked == s.client.output.queue.asked + if l.CNext? then 1 else 0
  }

  lemma ClientTurnAsked(k: Kind, s: System, l: Label)
    requires Enabled(k, s, l) && ClientAlone(l)
    ensures ClientAsked(s, s.(client := ClientTurnOf(k, s, l).client), l)
  {
  }

  lemma ClientReceiveAsked(k: Kind, c: Client, b: Body, valid: bool)
    ensures var c' := ClientReceive(k, c, b, valid);
            c'.input.requests == c.input.requests && c'.output.queue.asked == c.output.queue.asked
  {
  }

  lemma ClientStepAsked(k: Kind, s: System, l: Label)
    requires Enabled(k, s, l)
    ensures ClientAsked(s, Step(k, s, l), l)
  {
    if ClientAlone(l) {
      ClientTurnAsked(k, s, l);
      ClientTurnStep(k, s, l);
    } else if l.CReceive? {
      ClientReceiveAsked(k, s.client, s.toClient[0], l.valid);
    } else if ServerAlone(l) {
      TurnOfStep(k, s, l);
    }
  }

  /** What the server did with what its handler asked. */
  ghost predicate ServerAsked(k: Kind, v: Server, v': Server, l: Label) {
    var o, o' := v.output, v'.output;
    && v'.input.queue.asked == v.input.queue.asked + (if l.SNext? then 1 else 0)
    && (l.STakeUp? ==> o.todo != [] && o'.todo == o.todo[1..])
    && (!l.STakeUp? ==>
          o'.todo == o.todo + (if l.SAsk? then [l.r] else if l.SReturn? && k.HasOutput() then [CloseOutput] else []))
  }

  /** What it submitted, and what it still holds, of the items it took up. */
  ghost predicate Holds(v: Server, v': Server, more: seq<Payload>) {
    && v.output.produced <= v'.output.produced <= v.output.produced + Pending(v) + more
    && (v'.end.fate == Running ==> v.output.produced + Pending(v) + more == v'.output.produced + Pending(v'))
    && (v.end.fate != Running ==> v'.output.produced == v.output.produced && v'.end.fate == v.end.fate)
    && (v'.end.fate == Completed && v.end.fate == Running ==> v'.output.produced == v.output.produced + Pending(v) + more)
  }

  /** The item that a step of the server takes up. */
  function TakesItem(v: Server, l: Label): seq<Payload> {
    if l.STakeUp? && l.valid && v.output.todo != [] && v.output.todo[0].SendItem? && v.end.fate == Running && !v.output.closed
    then [v.output.todo[0].v] else []
  }

  lemma ServerTurnAsked(k: Kind, s: System, l: Label)
    requires Enabled(k, s, l) && ServerAlone(l)
    ensures ServerAsked(k, s.server, TurnOf(k, s, l).server, l)
  {
  }

  /** What the two lemmas below need of the server. */
  ghost predicate OutputOk(v: Server) {
    && (v.end.replacing || v.end.final.Some? ==> v.end.fate != Running)
    && (v.end.fate == Running && v.output.busy.AwaitCredit? ==> !v.output.closed)
  }

  lemma TakeUpHolds(k: Kind, s: System, l: Label)
    requires Enabled(k, s, l) && (l.STakeUp? || l.SContinue?) && OutputOk(s.server)
    ensures Holds(s.server, TurnOf(k, s, l).server, TakesItem(s.server, l))
  {
  }

  lemma ServerTurnHolds(k: Kind, s: System, l: Label)
    requires Enabled(k, s, l) && ServerAlone(l) && OutputOk(s.server)
    requires !k.HasOutput() ==> Pending(s.server) == []
    ensures Holds(s.server, TurnOf(k, s, l).server, TakesItem(s.server, l))
  {
    if l.STakeUp? || l.SContinue? { TakeUpHolds(k, s, l); }
  }

  lemma ServerReceiveAsked(k: Kind, v: Server, b: Body, valid: bool, decision: Decision)
    ensures var v' := ServerReceive(k, v, b, valid, decision).server;
            && v'.input.queue.asked == v.input.queue.asked && v'.output.todo == v.output.todo
            && v'.output.produced == v.output.produced && Pending(v') == Pending(v)
            && (v.end.fate != Running ==> v'.end.fate == v.end.fate)
            && (v'.end.fate == Completed ==> v.end.fate == Completed)
  {
  }

  lemma ServerStepAsked(k: Kind, s: System, l: Label)
    requires Inv(k, s) && Enabled(k, s, l)
    ensures ServerAsked(k, s.server, Step(k, s, l).server, l) && Holds(s.server, Step(k, s, l).server, TakesItem(s.server, l))
  {
    if ServerAlone(l) {
      ServerTurnAsked(k, s, l);
      ServerTurnHolds(k, s, l);
      TurnOfStep(k, s, l);
    } else {
      OtherStepAsked(k, s, l);
    }
  }

  lemma OtherStepAsked(k: Kind, s: System, l: Label)
    requires Enabled(k, s, l) && !ServerAlone(l)
    ensures ServerAsked(k, s.server, Step(k, s, l).server, l) && Holds(s.server, Step(k, s, l).server, TakesItem(s.server, l))
  {
    if l.SReceive? {
      ServerReceiveAsked(k, s.server, s.toServer[0], l.valid, l.decision);
    } else if ClientAlone(l) {
      ClientTurnStep(k, s, l);
    }
  }

  lemma TakesWhatWasAsked(k: Kind, s: System, labels: seq<Label>, h: History, l: Label)
    requires AsAsked(k, s, labels, h)
    ensures TakesItem(s.server, l) == Chosen(k, s, labels, l)
  {
  }

  lemma StepAsAsked(k: Kind, s: System, s': System, labels: seq<Label>, h: History, l: Label)
    requires AsAsked(k, s, labels, h)
    requires ClientAsked(s, s', l) && ServerAsked(k, s.server, s'.server, l)
    requires Holds(s.server, s'.server, Chosen(k, s, labels, l))
    requires s.server.end.fate != Running ==> Chosen(k, s, labels, l) == []
    ensures AsAsked(k, s', labels + [l], After(k, s, labels, h, l))
  {
    LabelsSnoc(k, labels, l);
  }

  lemma NextAsAsked(k: Kind, states: seq<System>, labels: seq<Label>, n: nat, h: History)
    requires IsRun(k, states, labels) && n < |labels| && AsAsked(k, states[n], labels[..n], h)
    ensures AsAsked(k, states[n + 1], labels[..n] + [labels[n]], After(k, states[n], labels[..n], h, labels[n]))
  {
    RunInv(k, states, labels, n);
    ClientStepAsked(k, states[n], labels[n]);
    ServerStepAsked(k, states[n], labels[n]);
    TakesWhatWasAsked(k, states[n], labels[..n], h, labels[n]);
    StepAsAsked(k, states[n], states[n + 1], labels[..n], h, labels[n]);
  }

  /** What the first `n` steps chose and sent. */
  function HistoryUpTo(k: Kind, states: seq<System>, labels: seq<Label>, n: nat): History
    requires n <= |labels| < |states|
  {
    if n == 0 then History([], [])
    else After(k, states[n - 1], labels[..n - 1], HistoryUpTo(k, states, labels, n - 1), labels[n - 1])
  }

  /** What is as asked before the step is so after it. */
  ghost predicate Carries(k: Kind, states: seq<System>, labels: seq<Label>, i: nat)
    requires i < |labels| < |states|
  {
    forall h :: AsAsked(k, states[i], labels[..i], h) ==>
      AsAsked(k, states[i + 1], labels[..i] + [labels[i]], After(k, states[i], labels[..i], h, labels[i]))
  }

  lemma {:induction false} ChainAsAsked(k: Kind, states: seq<System>, labels: seq<Label>, n: nat)
    requires n <= |labels| < |states| && AsAsked(k, states[0], [], History([], []))
    requires forall i :: 0 <= i < |labels| ==> Carries(k, states, labels, i)
    ensures AsAsked(k, states[n], labels[..n], HistoryUpTo(k, states, labels, n))
  {
    if n > 0 {
      ChainAsAsked(k, states, labels, n - 1);
      assert Carries(k, states, labels, n - 1);
      assert labels[..n] == labels[..n - 1] + [labels[n - 1]];
    } else {
      assert labels[..0] == [];
    }
  }

  lemma RunAsAsked(k: Kind, states: seq<System>, labels: seq<Label>, n: nat)
    requires IsRun(k, states, labels) && n <= |labels|
    ensures AsAsked(k, states[n], labels[..n], HistoryUpTo(k, states, labels, n))
  {
    forall i | 0 <= i < |labels| ensures Carries(k, states, labels, i) {
      forall h | AsAsked(k, states[i], labels[..i], h)
        ensures AsAsked(k, states[i + 1], labels[..i] + [labels[i]], After(k, states[i], labels[..i], h, labels[i]))
      {
        NextAsAsked(k, states, labels, i, h);
      }
    }
    StartAsAsked(k, states[0]);
    ChainAsAsked(k, states, labels, n);
  }

  lemma StartAsAsked(k: Kind, s: System)
    requires IsStart(s)
    ensures AsAsked(k, s, [], History([], []))
  {
  }

  /**
   * Requests are taken up in the order in which the handler made them, none is
   * lost, and the items submitted are the valid ones taken up before the end of
   * the output: the first of them while the call goes on, and all of them when it
   * completed. Callers' sends are served in the order of the calls.
   */
  lemma RequestsInOrder(k: Kind, states: seq<System>, labels: seq<Label>, n: nat)
    requires IsRun(k, states, labels) && n <= |labels|
    ensures var s, h := states[n], HistoryUpTo(k, states, labels, n);
            && TakenUp(labels[..n]) <= |Asked(k, labels[..n])|
            && s.server.output.todo == Asked(k, labels[..n])[TakenUp(labels[..n])..]
            && s.server.output.produced <= h.chosen
            && (s.server.end.fate == Completed ==> s.server.output.produced == h.chosen)
            && s.client.input.requests == h.sent && s.client.input.produced <= h.sent
            && s.client.output.queue.asked == ConsumerReads(labels[..n])
            && s.server.input.queue.asked == HandlerReads(labels[..n])
  {
    RunAsAsked(k, states, labels, n);
    RunInv(k, states, labels, n);
  }

  // --- What becomes of one request ---------------------------------------------------------------------

  /** The call fails on its own side, and is answered. */
  ghost predicate FailsWith(s: System, s': System, fate: Fate) {
    && s'.server.end.fate == fate && s'.server.end.final == Some(Error) && s'.down.call == s.down.call + [Error]
    && s'.server.output.window.closed && s'.server.input.queue.mode == Failed
  }

  /**
   * A request of a running call with an open output: an item waits for credit,
   * or, if it is invalid, ends the call, except that a duplex handler only has
   * this send refused; the end is submitted.
   */
  lemma RequestTakenUp(k: Kind, s: System, valid: bool)
    requires Enabled(k, s, STakeUp(valid)) && s.server.end.fate == Running && !s.server.output.closed
    ensures var s', v, o := Step(k, s, STakeUp(valid)), s.server, s.server.output;
            match o.todo[0]
            case CloseOutput =>
              s'.server.output.closed && s'.down.call == s.down.call + [End(FromServer)] && s'.server.end == v.end
            case SendItem(p) =>
              if valid then
                && s'.server.output.busy == AwaitCredit(p) && s'.server.output.window == o.window.Acquire()
                && s'.server.end == v.end && s'.down == s.down
              else if k.Duplex? then s'.server.end == v.end && s'.server.output.busy == o.busy && s'.down == s.down
              else FailsWith(s, s', Invalid)
  {
  }

  /** An item that got its credit goes out with the next number, or, if it is too large, ends the call. */
  lemma ItemGoesOut(k: Kind, s: System, large: bool)
    requires Enabled(k, s, SContinue(large)) && s.server.end.fate == Running
    ensures var s', o := Step(k, s, SContinue(large)), s.server.output;
            if large then FailsWith(s, s', Local)
            else
              && s'.down.call == s.down.call + [Item(FromServer, o.sequence, o.busy.v)] && s'.server.end == s.server.end
              && s'.server.output.produced == o.produced + [o.busy.v]
  {
  }

  /** A handler returns once; then the call can finish as soon as its output, if it has one, was closed. */
  lemma HandlerReturns(k: Kind, s: System)
    requires Enabled(k, s, SReturn)
    ensures var s' := Step(k, s, SReturn);
            && s'.server.handlerDone && !Enabled(k, s', SReturn) && s'.server.end == s.server.end && s'.down == s.down
            && (!k.HasOutput() && s.server.end.fate == Running ==> Enabled(k, s', SFinish(false)))
  {
  }

  /** A handler that is through has its result sent; one over the size limit is replaced by an error. */
  lemma ResultGoesOut(k: Kind, s: System, large: bool)
    requires Enabled(k, s, SFinish(large))
    ensures var s' := Step(k, s, SFinish(large));
            if !large then
              s'.server.end.fate == Completed && s'.server.end.final == Some(Result) && s'.down.call == s.down.call + [Result]
            else
              && s'.server.end.fate == Local && s'.server.end.final == s.server.end.final && s'.down == s.down
              && Enabled(k, s', SReplace)
              && Step(k, s', SReplace).down.call == s.down.call + [Error]
  {
  }

  /** When the connection is lost both halves can end, without a frame: the consumer's queue fails, and the handler's input. */
  lemma LossEndsBoth(k: Kind, s: System)
    requires s.cut
    ensures Enabled(k, s, CLost)
    ensures s.client.fate == Running ==>
              var s' := Step(k, s, CLost);
              s'.client.fate == Local && s'.client.output.queue.mode == Failed && s'.client.input.window.closed && s'.up == s.up
    ensures s.server.accepted && s.server.end.fate == Running ==>
              var s' := Step(k, s, SLost);
              && Enabled(k, s, SLost) && s'.server.end.fate == Local && s'.server.end.removed && s'.down == s.down
              && s'.server.input.queue.mode == Failed && s'.server.output.window.closed
  {
  }
}
