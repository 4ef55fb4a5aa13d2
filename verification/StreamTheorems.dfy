/**
 * What the stream protocol guarantees over whole runs: credit is conserved, two
 * honest ends never accuse each other, items arrive in order and, on success,
 * all of them, buffers are bounded, credit never deadlocks, and every accepted
 * call is answered exactly once.
 */
module StreamTheorems {

  import opened Wrappers
  import opened Protocol
  import opened Flow
  import opened Stream
  import opened StreamInvariant
  import opened StreamReceive
  import opened StreamSteps

  /** `states` are the states passed through when the steps `labels` are taken in turn. */
  ghost predicate IsPath(k: Kind, states: seq<System>, labels: seq<Label>) {
    && |states| == |labels| + 1
    && forall i :: 0 <= i < |labels| ==>
         Enabled(k, states[i], labels[i]) && states[i + 1] == Step(k, states[i], labels[i])
  }

  ghost predicate AllClean(states: seq<System>, labels: seq<Label>)
    requires |states| == |labels| + 1
  {
    forall i :: 0 <= i < |labels| ==> Clean(states[i], labels[i])
  }

  /** A run: a path from the start on which no send overtakes the closing of its input. */
  ghost predicate IsRun(k: Kind, states: seq<System>, labels: seq<Label>) {
    IsPath(k, states, labels) && IsStart(states[0]) && AllClean(states, labels)
  }

  lemma {:induction false} PathInv(k: Kind, states: seq<System>, labels: seq<Label>, n: nat)
    requires IsPath(k, states, labels) && AllClean(states, labels) && Inv(k, states[0]) && n <= |labels|
    ensures Inv(k, states[n])
  {
    if n > 0 {
      PathInv(k, states, labels, n - 1);
      StepInv(k, states[n - 1], labels[n - 1]);
    }
  }

  lemma RunInv(k: Kind, states: seq<System>, labels: seq<Label>, n: nat)
    requires IsRun(k, states, labels) && n <= |labels|
    ensures Inv(k, states[n])
  {
    StartInv(k, states[0]);
    PathInv(k, states, labels, n);
  }

  /** Neither end ever finds fault with the other. */
  lemma NoProtocolFault(k: Kind, states: seq<System>, labels: seq<Label>, n: nat)
    requires IsRun(k, states, labels) && n <= |labels|
    ensures states[n].client.fate != Fate.Protocol && states[n].server.end.fate != Fate.Protocol
  {
    RunInv(k, states, labels, n);
  }

  // --- Credit ---------------------------------------------------------------------------

  /** The item frames of one direction among `frames`. */
  ghost function Count(d: Direction, frames: seq<Body>): nat {
    if frames == [] then 0
    else (if frames[0].Item? && frames[0].direction == d then 1 else 0) + Count(d, frames[1..])
  }

  lemma {:induction false} CountConcat(d: Direction, a: seq<Body>, b: seq<Body>)
    ensures Count(d, a + b) == Count(d, a) + Count(d, b)
  {
    if a == [] {
      assert a + b == b;
    } else {
      assert (a + b)[0] == a[0] && (a + b)[1..] == a[1..] + b;
      CountConcat(d, a[1..], b);
    }
  }

  lemma {:induction false} CountData(d: Direction, wire: seq<Body>)
    ensures Count(d, Data(wire)) == Count(d, wire)
  {
    if wire != [] {
      CountData(d, wire[1..]);
      if !IsControlBody(wire[0]) {
        assert Data(wire) == [wire[0]] + Data(wire[1..]);
      }
    }
  }

  lemma {:induction false} CountItems(d: Direction, values: seq<Payload>, from: nat)
    requires from <= |values|
    ensures Count(d, Items(d, values)[from..]) == |values| - from
    decreases |values| - from
  {
    if from < |values| {
      CountItems(d, values, from + 1);
      assert Items(d, values)[from..][1..] == Items(d, values)[from + 1..];
    }
  }

  lemma CountRest(d: Direction, values: seq<Payload>, closed: bool, expected: nat, ended: bool)
    requires expected <= |values| && (ended ==> closed && expected == |values|)
    ensures Count(d, (Items(d, values) + If(closed, End(d)))[expected + if ended then 1 else 0..]) == |values| - expected
  {
    var log := Items(d, values) + If(closed, End(d));
    if !ended {
      assert log[expected..] == Items(d, values)[expected..] + If(closed, End(d));
      CountConcat(d, Items(d, values)[expected..], If(closed, End(d)));
      CountItems(d, values, expected);
    }
  }

  /** What is queued at the writer or on the wire is the rest of the log. */
  lemma InFlight(d: Direction, log: seq<Body>, sent: nat, got: nat, wire: seq<Body>, call: seq<Body>)
    requires WireOk(log, sent, got, wire, false) && call == log[sent..]
    ensures Count(d, wire) + Count(d, call) == Count(d, log[got..])
  {
    assert log[got..] == Data(wire) + call;
    CountConcat(d, Data(wire), call);
    CountData(d, wire);
  }

  /** The items on their way to the client are those produced and not received yet. */
  lemma OutputInFlight(k: Kind, s: System)
    requires DownOk(k, s.server, s.down) && s.server.end.final == None
    requires WireOk(s.down.log, s.down.sent, s.clientGot, s.toClient, false)
    requires ClientReads(k, s.server, s.client, s.clientGot) && s.client.fate == Running
    ensures Count(FromServer, s.down.call) + Count(FromServer, s.toClient)
            == |s.server.output.produced| - s.client.output.expected
  {
    var o, r := s.server.output, s.client.output;
    InFlight(FromServer, s.down.log, s.down.sent, s.clientGot, s.toClient, s.down.call);
    assert s.down.log == Items(FromServer, o.produced) + If(o.closed, End(FromServer));
    CountRest(FromServer, o.produced, o.closed, r.expected, r.ended);
  }

  lemma UpRest(produced: seq<Payload>, closed: bool, expected: nat, ended: bool)
    requires expected <= |produced| && (ended ==> closed && expected == |produced|)
    ensures var n := 1 + expected + if ended then 1 else 0;
            n <= |UpLog(produced, closed)| && Count(FromClient, UpLog(produced, closed)[n..]) == |produced| - expected
  {
    var rest := Items(FromClient, produced) + If(closed, End(FromClient));
    var n := expected + if ended then 1 else 0;
    assert UpLog(produced, closed) == [Open] + rest;
    assert ([Open] + rest)[1 + n..] == rest[n..];
    CountRest(FromClient, produced, closed, expected, ended);
  }

  lemma UpUnread(produced: seq<Payload>, closed: bool)
    ensures Count(FromClient, UpLog(produced, closed)) == |produced|
  {
    UpRest(produced, closed, 0, false);
    assert UpLog(produced, closed) == [Open] + UpLog(produced, closed)[1..];
    CountConcat(FromClient, [Open], UpLog(produced, closed)[1..]);
  }

  lemma InputInFlight(s: System)
    requires s.up.log == UpLog(s.client.input.produced, s.client.input.closed)
    requires WireOk(s.up.log, s.up.sent, s.serverGot, s.toServer, false) && s.up.call == s.up.log[s.up.sent..]
    requires ServerReads(s.client.input.produced, s.client.input.closed, s.server, s.serverGot)
    requires s.server.end.fate == Running && (!s.server.accepted ==> s.server.input.expected == 0)
    ensures Count(FromClient, s.up.call) + Count(FromClient, s.toServer)
            == |s.client.input.produced| - s.server.input.expected
  {
    var i, r := s.client.input, s.server.input;
    InFlight(FromClient, s.up.log, s.up.sent, s.serverGot, s.toServer, s.up.call);
    if s.server.accepted {
      UpRest(i.produced, i.closed, r.expected, r.ended);
    } else {
      assert s.up.log[s.serverGot..] == s.up.log;
      UpUnread(i.produced, i.closed);
    }
  }

  /**
   * Output: what the client still allows is the server's credit, the items that
   * took theirs but are not sent, the items under way, and the grants under way.
   */
  ghost predicate OutputBalance(s: System) {
    var o := s.server.output;
    s.client.output.allowance ==
      o.window.credit + (o.window.served - |o.produced|)
      + Count(FromServer, s.down.call) + Count(FromServer, s.toClient)
      + Credits(FromServer, s.up.control) + Credits(FromServer, s.toServer)
  }

  /** Input: the same for what the server allows. */
  ghost predicate InputBalance(s: System) {
    var i := s.client.input;
    s.server.input.allowance ==
      i.window.credit + (i.window.served - |i.produced|)
      + Count(FromClient, s.up.call) + Count(FromClient, s.toServer)
      + Credits(FromClient, s.down.control) + Credits(FromClient, s.toClient)
  }

  lemma Conserved(k: Kind, s: System)
    requires Inv(k, s) && !s.cut && s.client.fate == Running && s.server.end.fate == Running
    ensures OutputBalance(s) && InputBalance(s)
  {
    OutputInFlight(k, s);
    InputInFlight(s);
  }

  /** Both balances hold at every point of every run at which both halves are open. */
  lemma CreditIsConserved(k: Kind, states: seq<System>, labels: seq<Label>, n: nat)
    requires IsRun(k, states, labels) && n <= |labels|
    requires !states[n].cut && states[n].client.fate == Running && states[n].server.end.fate == Running
    ensures OutputBalance(states[n]) && InputBalance(states[n])
  {
    RunInv(k, states, labels, n);
    Conserved(k, states[n]);
  }

  // --- What no step takes back ----------------------------------------------------------------

  ghost predicate ReceiverGrows(r: Receiver, r': Receiver) {
    && r.queue.pushed <= r'.queue.pushed && r.queue.taken <= r'.queue.taken
    && |r'.queue.pushed| - |r.queue.pushed| <= r'.expected - r.expected
  }

  /** Nothing produced or delivered is taken back, and a fate, once decided, is final. */
  ghost predicate Grows(s: System, s': System) {
    && ReceiverGrows(s.client.output, s'.client.output)
    && ReceiverGrows(s.server.input, s'.server.input)
    && s.client.input.produced <= s'.client.input.produced
    && s.server.output.produced <= s'.server.output.produced
    && (s.client.fate != Running ==> s'.client.fate == s.client.fate)
    && (s.server.end.fate != Running ==> s'.server.end.fate == s.server.end.fate)
    && (s.server.end.final.Some? ==>
          s'.server.end.final == s.server.end.final && s'.server.output.produced == s.server.output.produced)
  }

  lemma ClientReceiveGrows(k: Kind, c: Client, b: Body, valid: bool)
    ensures var c' := ClientReceive(k, c, b, valid);
            && ReceiverGrows(c.output, c'.output) && c.input.produced <= c'.input.produced
            && (c.fate != Running ==> c'.fate == c.fate)
  {
  }

  lemma ServerReceiveGrows(k: Kind, v: Server, b: Body, valid: bool, decision: Decision)
    requires v.end.final.Some? ==> v.end.fate != Running
    ensures var v' := ServerReceive(k, v, b, valid, decision).server;
            && ReceiverGrows(v.input, v'.input) && v'.output.produced == v.output.produced
            && (v.end.fate != Running ==> v'.end.fate == v.end.fate && v'.end.final == v.end.final)
  {
  }

  lemma ServerAloneGrows(k: Kind, s: System, l: Label)
    requires ServerSide(k, s.server, s.down, s.cut) && Enabled(k, s, l) && ServerAlone(l)
    ensures Grows(s, Step(k, s, l))
  {
    TurnOfGood(k, s, l);
    TurnOfStep(k, s, l);
  }

  lemma ClientAloneGrows(k: Kind, s: System, l: Label)
    requires ClientOk(k, s.client) && UpOk(k, s.client, s.up) && Enabled(k, s, l) && ClientAlone(l) && Clean(s, l)
    ensures Grows(s, Step(k, s, l))
  {
    ClientTurnGood(k, s, l);
    ClientTurnStep(k, s, l);
  }

  lemma WireGrows(k: Kind, s: System, l: Label)
    requires s.server.end.final.Some? ==> s.server.end.fate != Running
    requires Enabled(k, s, l) && (l.CReceive? || l.SReceive? || l.TransmitUp? || l.TransmitDown? || l.Cut?)
    ensures Grows(s, Step(k, s, l))
  {
    if l.SReceive? {
      ServerReceiveGrows(k, s.server, s.toServer[0], l.valid, l.decision);
    } else if l.CReceive? {
      ClientReceiveGrows(k, s.client, s.toClient[0], l.valid);
    }
  }

  lemma StepGrows(k: Kind, s: System, l: Label)
    requires Inv(k, s) && Enabled(k, s, l) && Clean(s, l)
    ensures Grows(s, Step(k, s, l))
  {
    if ServerAlone(l) {
      ServerAloneGrows(k, s, l);
    } else if ClientAlone(l) {
      ClientAloneGrows(k, s, l);
    } else {
      WireGrows(k, s, l);
    }
  }

  lemma NextGrows(k: Kind, states: seq<System>, labels: seq<Label>, n: nat)
    requires IsRun(k, states, labels) && n < |labels|
    ensures Grows(states[n], states[n + 1])
  {
    RunInv(k, states, labels, n);
    StepGrows(k, states[n], labels[n]);
  }

  lemma GrowsOn(a: System, b: System, c: System)
    requires Grows(a, b) && Grows(b, c)
    ensures Grows(a, c)
  {
  }

  lemma {:induction false} ChainGrows(states: seq<System>, m: nat, n: nat)
    requires m <= n < |states|
    requires forall i :: 0 <= i < |states| - 1 ==> Grows(states[i], states[i + 1])
    ensures Grows(states[m], states[n])
  {
    if m < n {
      ChainGrows(states, m, n - 1);
      assert Grows(states[n - 1], states[n - 1 + 1]);
      GrowsOn(states[m], states[n - 1], states[n]);
    }
  }

  lemma RunGrows(k: Kind, states: seq<System>, labels: seq<Label>, m: nat, n: nat)
    requires IsRun(k, states, labels) && m <= n <= |labels|
    ensures Grows(states[m], states[n])
  {
    forall i | 0 <= i < |labels| ensures Grows(states[i], states[i + 1]) {
      NextGrows(k, states, labels, i);
    }
    ChainGrows(states, m, n);
  }

  // --- Bounded buffers ------------------------------------------------------------------------

  /** Items still buffered, and items handed to the consumer for which no new credit was granted yet. */
  function Held(r: Receiver): int { |r.queue.pushed| - r.regranted }

  /** No item is buffered that did not use up allowance. */
  predicate Metered(s: System) {
    && |s.client.output.queue.pushed| <= s.client.output.expected
    && |s.server.input.queue.pushed| <= s.server.input.expected
  }

  lemma {:induction false} RunMetered(k: Kind, states: seq<System>, labels: seq<Label>, n: nat)
    requires IsRun(k, states, labels) && n <= |labels|
    ensures Metered(states[n])
  {
    if n > 0 {
      RunMetered(k, states, labels, n - 1);
      NextGrows(k, states, labels, n - 1);
    }
  }

  /**
   * What may still arrive and what is held never exceed the initial credit;
   * while a stream is open they are exactly that.
   */
  lemma BoundedBuffers(k: Kind, states: seq<System>, labels: seq<Label>, n: nat)
    requires IsRun(k, states, labels) && n <= |labels|
    ensures var r := states[n].client.output;
            && 0 <= r.allowance && r.allowance + Held(r) <= INITIAL_STREAM_CREDIT
            && (k.HasOutput() && states[n].client.ready && states[n].client.fate == Running && !r.ended ==>
                  r.allowance + Held(r) == INITIAL_STREAM_CREDIT)
    ensures var r := states[n].server.input;
            && 0 <= r.allowance && r.allowance + Held(r) <= INITIAL_STREAM_CREDIT
            && (k.HasInput() && states[n].server.accepted && states[n].server.end.fate == Running && !r.ended ==>
                  r.allowance + Held(r) == INITIAL_STREAM_CREDIT)
  {
    RunInv(k, states, labels, n);
    RunMetered(k, states, labels, n);
  }

  // --- Delivery ---------------------------------------------------------------------------------

  /** The items a consumer has been handed. */
  function Taken(q: Queue<Payload>): seq<Payload> {
    if q.taken <= |q.pushed| then q.pushed[..q.taken] else []
  }

  /**
   * Output: what the consumer has been handed only grows, and is at every
   * moment the first items the handler sent, in order and without repetition;
   * when the call completes all of them have arrived.
   */
  lemma OutputDelivered(k: Kind, states: seq<System>, labels: seq<Label>, m: nat, n: nat)
    requires IsRun(k, states, labels) && m <= n <= |labels|
    ensures Taken(states[m].client.output.queue) <= Taken(states[n].client.output.queue)
         <= states[n].server.output.produced
    ensures states[m].client.fate == Completed ==>
              states[n].client.output.queue.pushed == states[n].server.output.produced == states[m].server.output.produced
    ensures states[n].client.fate == Completed && states[n].client.output.queue.asked > states[n].client.output.queue.taken ==>
              Taken(states[n].client.output.queue) == states[n].server.output.produced
  {
    RunInv(k, states, labels, m);
    RunInv(k, states, labels, n);
    RunGrows(k, states, labels, m, n);
  }

  /** What a consumer that saw the end, rather than an error, can rely on. */
  ghost predicate EndsWell(c: Client) {
    && (c.output.queue.mode != Ended ==> c.output.queue.ends == 0)
    && (c.output.queue.ends > 0 ==> c.output.queue.taken == |c.output.queue.pushed|)
    && (c.output.queue.mode == Live <==> c.fate == Running)
    && c.output.queue.taken <= |c.output.queue.pushed| && c.output.queue.taken <= c.output.queue.asked
    && (c.output.queue.taken < |c.output.queue.pushed| ==> c.output.queue.asked == c.output.queue.taken)
  }

  /** The consumer gave the call up. */
  predicate GivenUp(c: Client) { c.output.queue.mode == Ended && c.fate != Completed }

  lemma EndsWellTurn(k: Kind, s: System, l: Label)
    requires EndsWell(s.client) && Enabled(k, s, l) && ClientAlone(l)
    ensures EndsWell(ClientTurnOf(k, s, l).client)
    ensures GivenUp(ClientTurnOf(k, s, l).client) ==> GivenUp(s.client) || l.CCancel?
  {
  }

  lemma EndsWellReceive(k: Kind, c: Client, b: Body, valid: bool)
    requires EndsWell(c)
    ensures EndsWell(ClientReceive(k, c, b, valid))
    ensures GivenUp(ClientReceive(k, c, b, valid)) ==> GivenUp(c)
  {
  }

  lemma EndsWellStep(k: Kind, s: System, l: Label)
    requires EndsWell(s.client) && Enabled(k, s, l)
    ensures EndsWell(Step(k, s, l).client)
    ensures GivenUp(Step(k, s, l).client) ==> GivenUp(s.client) || l.CCancel?
  {
    if ClientAlone(l) {
      EndsWellTurn(k, s, l);
      ClientTurnStep(k, s, l);
    } else if l.CReceive? {
      EndsWellReceive(k, s.client, s.toClient[0], l.valid);
    } else if ServerAlone(l) {
      TurnOfStep(k, s, l);
    }
  }

  lemma {:induction false} RunEndsWell(k: Kind, states: seq<System>, labels: seq<Label>, n: nat)
    requires IsPath(k, states, labels) && IsStart(states[0]) && n <= |labels|
    ensures EndsWell(states[n].client)
    ensures GivenUp(states[n].client) ==> exists m :: 0 <= m < n && labels[m].CCancel?
  {
    if n > 0 {
      RunEndsWell(k, states, labels, n - 1);
      EndsWellStep(k, states[n - 1], labels[n - 1]);
    }
  }

  /**
   * A read sees the end only if the call completed or its consumer gave it up;
   * an iteration that ends without having been given up has received exactly
   * the items the handler sent.
   */
  lemma NormalEndHasEverything(k: Kind, states: seq<System>, labels: seq<Label>, n: nat)
    requires IsRun(k, states, labels) && n <= |labels|
    requires states[n].client.output.queue.ends > 0
    ensures states[n].client.fate == Completed || exists m :: 0 <= m < n && labels[m].CCancel?
    ensures (forall m :: 0 <= m < n ==> !labels[m].CCancel?) ==>
              Taken(states[n].client.output.queue) == states[n].server.output.produced
              && states[n].server.end.final == Some(Result)
  {
    RunEndsWell(k, states, labels, n);
    RunDelivered(k, states, labels, n);
  }

  lemma RunDelivered(k: Kind, states: seq<System>, labels: seq<Label>, n: nat)
    requires IsRun(k, states, labels) && n <= |labels|
    ensures states[n].client.fate == Completed ==>
              states[n].client.output.queue.pushed == states[n].server.output.produced
              && states[n].server.end.final == Some(Result)
  {
    RunInv(k, states, labels, n);
  }

  /** The caller closes its input only once the sends it made are through. */
  predicate Patient(s: System, l: Label) {
    l.CCloseInput? && s.client.fate == Running && !s.client.input.closed ==>
      s.client.input.continued == |s.client.input.requests|
  }

  /** Everything the callers sent was sent before the close. */
  predicate Settled(c: Client) {
    c.input.closed ==> c.input.continued == |c.input.requests| && c.input.produced == c.input.requests
  }

  lemma SettledTurn(k: Kind, s: System, l: Label)
    requires ClientOk(k, s.client) && Settled(s.client) && Enabled(k, s, l) && ClientAlone(l) && Patient(s, l)
    ensures Clean(s, l) && Settled(ClientTurnOf(k, s, l).client)
  {
  }

  lemma SettledReceive(k: Kind, c: Client, b: Body, valid: bool)
    requires Settled(c)
    ensures Settled(ClientReceive(k, c, b, valid))
  {
  }

  lemma PatientStep(k: Kind, s: System, l: Label)
    requires ClientOk(k, s.client) && Settled(s.client) && Enabled(k, s, l) && Patient(s, l)
    ensures Clean(s, l) && Settled(Step(k, s, l).client)
  {
    if ClientAlone(l) {
      SettledTurn(k, s, l);
      ClientTurnStep(k, s, l);
    } else if l.CReceive? {
      SettledReceive(k, s.client, s.toClient[0], l.valid);
    } else if ServerAlone(l) {
      TurnOfStep(k, s, l);
    }
  }

  lemma {:induction false} PatientRun(k: Kind, states: seq<System>, labels: seq<Label>, n: nat)
    requires IsPath(k, states, labels) && IsStart(states[0]) && n <= |labels|
    requires forall i :: 0 <= i < |labels| ==> Patient(states[i], labels[i])
    ensures Inv(k, states[n]) && Settled(states[n].client)
    ensures forall i :: 0 <= i < n ==> Clean(states[i], labels[i])
  {
    if n > 0 {
      PatientRun(k, states, labels, n - 1);
      PatientStep(k, states[n - 1], labels[n - 1]);
      StepInv(k, states[n - 1], labels[n - 1]);
    } else {
      StartInv(k, states[0]);
    }
  }

  lemma InputArrives(k: Kind, states: seq<System>, labels: seq<Label>, n: nat)
    requires IsPath(k, states, labels) && IsStart(states[0]) && n <= |labels|
    requires forall i :: 0 <= i < |labels| ==> Patient(states[i], labels[i])
    ensures var q, r := states[n].server.input.queue, states[n].client.input.requests;
            q.taken <= |q.pushed| && q.pushed <= r && (q.mode == Ended ==> q.pushed == r)
  {
    PatientRun(k, states, labels, n);
    EndedInput(k, states[n]);
  }

  lemma EndedInput(k: Kind, s: System)
    requires Inv(k, s) && Settled(s.client)
    ensures var q, r := s.server.input.queue, s.client.input.requests;
            q.taken <= |q.pushed| && q.pushed <= r && (q.mode == Ended ==> q.pushed == r)
  {
  }

  /** A handler that saw the end of its input was handed every item the client sent. */
  ghost predicate HandlerEnds(s: System) {
    var q := s.server.input.queue;
    q.ends > 0 ==> q.taken == |q.pushed| && q.pushed == s.client.input.produced && s.client.input.closed
  }

  ghost predicate ReceiverEnds(q: Queue<Payload>) {
    && q.taken <= |q.pushed| && q.taken <= q.asked && (q.taken < |q.pushed| ==> q.asked == q.taken)
    && (q.mode == Live ==> q.ends == 0)
    && (q.ends > 0 ==> q.taken == |q.pushed|)
  }

  lemma ReceiverEndsTurn(k: Kind, s: System, l: Label)
    requires ReceiverEnds(s.server.input.queue) && Enabled(k, s, l) && ServerAlone(l)
    ensures var q, q' := s.server.input.queue, TurnOf(k, s, l).server.input.queue;
            ReceiverEnds(q') && (q'.ends > q.ends ==> q'.mode == Ended)
  {
  }

  lemma ReceiverEndsReceive(k: Kind, v: Server, b: Body, valid: bool, decision: Decision)
    requires ReceiverEnds(v.input.queue)
    ensures var q, q' := v.input.queue, ServerReceive(k, v, b, valid, decision).server.input.queue;
            ReceiverEnds(q') && (q'.ends > q.ends ==> q'.mode == Ended)
  {
  }

  lemma ReceiverEndsStep(k: Kind, s: System, l: Label)
    requires ReceiverEnds(s.server.input.queue) && Enabled(k, s, l)
    ensures var q, q' := s.server.input.queue, Step(k, s, l).server.input.queue;
            ReceiverEnds(q') && (q'.ends > q.ends ==> q'.mode == Ended)
  {
    if ServerAlone(l) {
      ReceiverEndsTurn(k, s, l);
      TurnOfStep(k, s, l);
    } else if l.SReceive? {
      ReceiverEndsReceive(k, s.server, s.toServer[0], l.valid, l.decision);
    } else if ClientAlone(l) {
      ClientTurnStep(k, s, l);
    }
  }

  /** A closed input stays closed, with the items it had. */
  lemma ClosedStays(k: Kind, s: System, l: Label)
    requires ClientOk(k, s.client) && UpOk(k, s.client, s.up) && Enabled(k, s, l) && Clean(s, l) && s.client.input.closed
    ensures var i := Step(k, s, l).client.input; i.closed && i.produced == s.client.input.produced
  {
    if ClientAlone(l) {
      ClientTurnGood(k, s, l);
      ClientTurnStep(k, s, l);
    } else if l.CReceive? {
      InputStays(k, s.client, s.toClient[0], l.valid);
    } else if ServerAlone(l) {
      TurnOfStep(k, s, l);
    }
  }

  lemma InputStays(k: Kind, c: Client, b: Body, valid: bool)
    ensures var i := ClientReceive(k, c, b, valid).input; i.closed == c.input.closed && i.produced == c.input.produced
  {
  }

  lemma EndedHasAll(k: Kind, s: System)
    requires Inv(k, s)
    ensures s.server.input.queue.mode == Ended ==>
              s.server.input.queue.pushed == s.client.input.produced && s.client.input.closed
    ensures s.server.input.queue.pushed <= s.client.input.produced
  {
  }

  lemma HandlerEndsOn(s: System, s': System)
    requires HandlerEnds(s) && s.server.input.queue.pushed <= s'.server.input.queue.pushed <= s'.client.input.produced
    requires s.client.input.closed ==> s'.client.input.closed && s'.client.input.produced == s.client.input.produced
    requires ReceiverEnds(s'.server.input.queue)
    requires s'.server.input.queue.ends > s.server.input.queue.ends ==>
               s'.server.input.queue.pushed == s'.client.input.produced && s'.client.input.closed
    ensures HandlerEnds(s')
  {
  }

  lemma HandlerEndsStep(k: Kind, s: System, l: Label)
    requires Inv(k, s) && HandlerEnds(s) && ReceiverEnds(s.server.input.queue) && Enabled(k, s, l) && Clean(s, l)
    ensures HandlerEnds(Step(k, s, l)) && ReceiverEnds(Step(k, s, l).server.input.queue)
  {
    ReceiverEndsStep(k, s, l);
    StepGrows(k, s, l);
    if s.client.input.closed {
      ClosedStays(k, s, l);
    }
    StepHasAll(k, s, l);
    HandlerEndsOn(s, Step(k, s, l));
  }

  lemma StepHasAll(k: Kind, s: System, l: Label)
    requires Inv(k, s) && Enabled(k, s, l) && Clean(s, l)
    ensures var s' := Step(k, s, l);
            && s'.server.input.queue.pushed <= s'.client.input.produced
            && (s'.server.input.queue.mode == Ended ==>
                  s'.server.input.queue.pushed == s'.client.input.produced && s'.client.input.closed)
  {
    StepInv(k, s, l);
    EndedHasAll(k, Step(k, s, l));
  }

  lemma {:induction false} RunHandlerEnds(k: Kind, states: seq<System>, labels: seq<Label>, n: nat)
    requires IsRun(k, states, labels) && n <= |labels|
    ensures HandlerEnds(states[n]) && ReceiverEnds(states[n].server.input.queue)
  {
    if n > 0 {
      RunHandlerEnds(k, states, labels, n - 1);
      NextHandlerEnds(k, states, labels, n - 1);
    }
  }

  lemma NextHandlerEnds(k: Kind, states: seq<System>, labels: seq<Label>, n: nat)
    requires IsRun(k, states, labels) && n < |labels|
    requires HandlerEnds(states[n]) && ReceiverEnds(states[n].server.input.queue)
    ensures HandlerEnds(states[n + 1]) && ReceiverEnds(states[n + 1].server.input.queue)
  {
    RunInv(k, states, labels, n);
    HandlerEndsStep(k, states[n], labels[n]);
  }

  /**
   * Input: the handler has been handed the first items the callers sent, in
   * order and without repetition; one that saw the end of its input has been
   * handed every one of them, provided the caller closed only after its sends.
   */
  lemma InputDelivered(k: Kind, states: seq<System>, labels: seq<Label>, m: nat, n: nat)
    requires IsPath(k, states, labels) && IsStart(states[0]) && m <= n <= |labels|
    requires forall i :: 0 <= i < |labels| ==> Patient(states[i], labels[i])
    ensures IsRun(k, states, labels)
    ensures Taken(states[m].server.input.queue) <= Taken(states[n].server.input.queue)
         <= states[n].client.input.requests
    ensures states[n].server.input.queue.mode == Ended ==>
              states[n].server.input.queue.pushed == states[n].client.input.requests
    ensures states[n].server.input.queue.ends > 0 ==>
              Taken(states[n].server.input.queue) == states[n].client.input.requests
  {
    assert AllClean(states, labels) by {
      PatientRun(k, states, labels, |labels|);
    }
    InputArrives(k, states, labels, m);
    InputArrives(k, states, labels, n);
    RunGrows(k, states, labels, m, n);
    AllHanded(k, states, labels, n);
  }

  lemma AllHanded(k: Kind, states: seq<System>, labels: seq<Label>, n: nat)
    requires IsRun(k, states, labels) && n <= |labels|
    requires forall i :: 0 <= i < |labels| ==> Patient(states[i], labels[i])
    ensures states[n].server.input.queue.ends > 0 ==>
              Taken(states[n].server.input.queue) == states[n].client.input.requests
  {
    RunHandlerEnds(k, states, labels, n);
    PatientRun(k, states, labels, n);
  }

  // --- One answer per call ------------------------------------------------------------------------

  predicate IsTerminal(b: Body) { b.Result? || b.Error? }

  /** The data frames the server's writer has put on the wire in the course of a run. */
  ghost function Traffic(states: seq<System>, labels: seq<Label>): seq<Body>
    requires |states| == |labels| + 1
  {
    if labels == [] then []
    else
      var n := |labels| - 1;
      Traffic(states[..n + 1], labels[..n])
      + if labels[n].TransmitDown? && CanTransmit(states[n].down) && !IsControlBody(NextBody(states[n].down))
        then [NextBody(states[n].down)] else []
  }

  /** A step of the server's writer takes the log's next frame to the wire; no other step does. */
  ghost predicate Forwards(s: System, s': System, l: Label) {
    && s.down.sent <= |s.down.log| && s'.down.sent <= |s'.down.log|
    && s'.down.log[..s'.down.sent] ==
         s.down.log[..s.down.sent]
         + if l.TransmitDown? && CanTransmit(s.down) && !IsControlBody(NextBody(s.down)) then [NextBody(s.down)] else []
  }

  lemma OthersForward(s: System, s': System, l: Label)
    requires s.down.sent <= |s.down.log| && s.down.log <= s'.down.log && s'.down.sent == s.down.sent
    requires !l.TransmitDown?
    ensures Forwards(s, s', l)
  {
  }

  lemma TransmitForwards(k: Kind, s: System)
    requires DownOk(k, s.server, s.down) && CanTransmit(s.down)
    requires forall b <- s.down.log :: !IsControlBody(b)
    ensures Forwards(s, s.(toClient := s.toClient + [NextBody(s.down)], down := Transmitted(s.down)), TransmitDown)
  {
    if s.down.control == [] {
      assert s.down.call[0] == s.down.log[s.down.sent];
    } else {
      assert s.down.control[0] in s.down.control;
    }
  }

  lemma DownLogGrows(k: Kind, s: System, l: Label)
    requires Inv(k, s) && Enabled(k, s, l) && Clean(s, l) && !l.TransmitDown?
    ensures s.down.log <= Step(k, s, l).down.log && Step(k, s, l).down.sent == s.down.sent
  {
    if ServerAlone(l) {
      TurnOfGood(k, s, l);
      TurnOfStep(k, s, l);
    } else if ClientAlone(l) {
      ClientTurnStep(k, s, l);
    } else if l.SReceive? {
      ServerExpects(k, s);
      ServerTakes(k, s, l.valid, l.decision);
    }
  }

  lemma TrafficStep(k: Kind, s: System, l: Label)
    requires Inv(k, s) && Enabled(k, s, l) && Clean(s, l)
    ensures Forwards(s, Step(k, s, l), l)
  {
    if l.TransmitDown? {
      LogData(k, s);
      TransmitForwards(k, s);
    } else {
      DownLogGrows(k, s, l);
      OthersForward(s, Step(k, s, l), l);
    }
  }

  lemma {:induction false} ChainForwards(states: seq<System>, labels: seq<Label>)
    requires |states| == |labels| + 1 && states[0].down.sent == 0 <= |states[0].down.log|
    requires forall i :: 0 <= i < |labels| ==> Forwards(states[i], states[i + 1], labels[i])
    ensures var d := states[|labels|].down;
            d.sent <= |d.log| && Traffic(states, labels) == d.log[..d.sent]
  {
    if labels != [] {
      var n := |labels| - 1;
      forall i | 0 <= i < n ensures Forwards(states[..n + 1][i], states[..n + 1][i + 1], labels[..n][i]) {
        assert Forwards(states[i], states[i + 1], labels[i]);
      }
      ChainForwards(states[..n + 1], labels[..n]);
      assert Forwards(states[n], states[n + 1], labels[n]);
    }
  }

  lemma TrafficIsLog(k: Kind, states: seq<System>, labels: seq<Label>)
    requires IsRun(k, states, labels)
    ensures var d := states[|labels|].down;
            d.sent <= |d.log| && Traffic(states, labels) == d.log[..d.sent]
  {
    forall i | 0 <= i < |labels| ensures Forwards(states[i], states[i + 1], labels[i]) {
      RunForwards(k, states, labels, i);
    }
    ChainForwards(states, labels);
  }

  lemma RunForwards(k: Kind, states: seq<System>, labels: seq<Label>, n: nat)
    requires IsRun(k, states, labels) && n < |labels|
    ensures Forwards(states[n], states[n + 1], labels[n])
  {
    RunInv(k, states, labels, n);
    TrafficStep(k, states[n], labels[n]);
  }

  /** What the log of a call's data frames looks like, and when it is complete. */
  ghost predicate Answering(s: System) {
    var log := Items(FromServer, s.server.output.produced) + If(s.server.output.closed, End(FromServer));
    && s.down.sent <= |s.down.log|
    && s.down.log == log + Final(s.server.end.final)
    && (s.server.end.final.Some? ==> IsTerminal(s.server.end.final.value))
    && (s.server.end.fate == Running ==> s.server.end.final == None)
    && (s.server.accepted && s.server.end.removed && !s.cut ==> s.server.end.final.Some? && s.down.sent == |s.down.log|)
    && (s.server.end.fate != Running && !s.cut && s.server.end.final == None ==> s.server.end.replacing)
    && s.down.call == s.down.log[s.down.sent..]
  }

  lemma RunAnswering(k: Kind, states: seq<System>, labels: seq<Label>, n: nat)
    requires IsRun(k, states, labels) && n <= |labels|
    ensures Answering(states[n])
  {
    RunInv(k, states, labels, n);
    InvAnswering(k, states[n].server, states[n].down, states[n].cut, states[n]);
  }

  lemma InvAnswering(k: Kind, v: Server, down: Lane, cut: bool, s: System)
    requires ServerSide(k, v, down, cut) && v == s.server && down == s.down && cut == s.cut
    ensures Answering(s)
  {
  }

  /**
   * The frames sent to the caller are the items in order, then at most one
   * `stream.end`, then at most one terminal frame. A call that is over sends
   * its terminal frame unless the connection is cut first: when the server
   * forgets the call, it has.
   */
  lemma AnsweredOnce(k: Kind, states: seq<System>, labels: seq<Label>)
    requires IsRun(k, states, labels)
    ensures var s, t := states[|labels|], Traffic(states, labels);
            && t <= Items(FromServer, s.server.output.produced) + If(s.server.output.closed, End(FromServer)) + Final(s.server.end.final)
            && (forall i :: 0 <= i < |t| && IsTerminal(t[i]) ==> i == |t| - 1)
            && (s.server.end.fate == Running ==> forall b <- t :: !IsTerminal(b))
            && (s.server.accepted && s.server.end.removed && !s.cut ==> t != [] && IsTerminal(t[|t| - 1]))
  {
    TrafficIsLog(k, states, labels);
    RunAnswering(k, states, labels, |labels|);
  }
}
