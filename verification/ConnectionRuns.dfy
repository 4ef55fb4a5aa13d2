/**
 * Whole runs of a connection: the part that one call sees of it is a run of the
 * stream protocol, so every call has what that protocol promises.
 */
module ConnectionRuns {

  import opened Wrappers
  import opened Protocol
  import S = Stream
  import StreamInvariant
  import T = StreamTheorems
  import opened Connection

  /** No call lets a send go on after its input was closed. */
  ghost predicate Clean(n: Connection, e: Event)
    requires Enabled(n, e)
  {
    e.ClientActs? ==> StreamInvariant.Clean(View(n, e.callId), e.step)
  }

  ghost predicate IsRun(states: seq<Connection>, events: seq<Event>) {
    && |states| == |events| + 1 && NewConnection(states[0])
    && forall i :: 0 <= i < |events| ==>
         Good(states[i]) && Enabled(states[i], events[i]) && Clean(states[i], events[i])
         && states[i + 1] == After(states[i], events[i])
  }

  lemma NewIsGood(n: Connection)
    requires NewConnection(n)
    ensures Good(n)
  {
  }

  /** A run can always go on: what a step needs to hold does hold. */
  lemma RunGood(states: seq<Connection>, events: seq<Event>, n: nat)
    requires IsRun(states, events) && n <= |events|
    ensures Good(states[n])
  {
    if n == 0 {
      NewIsGood(states[0]);
    } else {
      StepGood(states[n - 1], events[n - 1]);
    }
  }

  lemma RunCalls(states: seq<Connection>, events: seq<Event>, i: nat)
    requires IsRun(states, events) && i < |events|
    ensures Keeps(states[i], states[i + 1])
    ensures forall c :: c in states[i + 1].calls && c !in states[i].calls ==> events[i].Begin? && events[i].callId == c
  {
    StepKeeps(states[i], events[i]);
  }

  lemma {:induction false} NotBegun(states: seq<Connection>, events: seq<Event>, c: CallId, i: nat, n: nat)
    requires IsRun(states, events) && i <= n <= |events| && c !in states[n].calls
    ensures c !in states[i].calls
    decreases n - i
  {
    if i < n {
      NotBegun(states, events, c, i + 1, n);
      RunCalls(states, events, i);
    }
  }

  /** `ss` is what the call saw of the first `n` events; at the i-th state it was in its `at[i]`-th. */
  ghost predicate Sees(states: seq<Connection>, n: nat, c: CallId, ss: seq<S.System>, at: seq<nat>)
    requires n < |states|
  {
    && |at| == n + 1 && at[n] + 1 == |ss|
    && (forall i :: 0 <= i <= n ==> at[i] < |ss| && (c in states[i].calls ==> ss[at[i]] == View(states[i], c)))
    && (forall i, j :: 0 <= i <= j <= n ==> at[i] <= at[j])
  }

  lemma SeesMore(states: seq<Connection>, n: nat, c: CallId, ss: seq<S.System>, at: seq<nat>, s: S.System)
    requires n + 1 < |states| && Sees(states, n, c, ss, at) && c in states[n + 1].calls && s == View(states[n + 1], c)
    ensures Sees(states, n + 1, c, ss + [s], at + [|ss|])
    ensures ss[|ss| - 1] == s ==> Sees(states, n + 1, c, ss, at + [|ss| - 1])
  {
  }

  lemma RunMore(k: S.Kind, ss: seq<S.System>, ls: seq<S.Label>, s: S.System, l: S.Label)
    requires T.IsRun(k, ss, ls) && S.Enabled(k, ss[|ls|], l) && s == S.Step(k, ss[|ls|], l)
    requires StreamInvariant.Clean(ss[|ls|], l)
    ensures T.IsRun(k, ss + [s], ls + [l])
  {
  }

  lemma SeesFirst(states: seq<Connection>, n: nat, c: CallId)
    requires n < |states| && c in states[n].calls && forall i :: 0 <= i < n ==> c !in states[i].calls
    ensures Sees(states, n, c, [View(states[n], c)], seq(n + 1, _ => 0))
  {
  }

  lemma FirstSight(states: seq<Connection>, events: seq<Event>, n: nat, c: CallId)
    requires IsRun(states, events) && n < |events| && c !in states[n].calls && c in states[n + 1].calls
    ensures Sees(states, n + 1, c, [View(states[n + 1], c)], seq(n + 2, _ => 0))
  {
    forall i | 0 <= i < n ensures c !in states[i].calls {
      NotBegun(states, events, c, i, n);
    }
    SeesFirst(states, n + 1, c);
  }

  /** In the run of the stream protocol `ss`, the call sees what happened so far. */
  ghost predicate SeesRun(
    states: seq<Connection>, n: nat, c: CallId, k: S.Kind, ss: seq<S.System>, ls: seq<S.Label>, at: seq<nat>)
    requires n < |states|
  {
    && c in states[n].calls && states[n].calls[c].kind == k
    && T.IsRun(k, ss, ls) && Sees(states, n, c, ss, at)
  }

  /** From one state to the next, the call does the step `l`, or nothing. */
  ghost predicate Next(n: Connection, n': Connection, c: CallId, l: Option<S.Label>) {
    && c in n.calls && c in n'.calls && n'.calls[c].kind == n.calls[c].kind
    && Does(n.calls[c].kind, View(n, c), View(n', c), l)
    && (l.Some? ==> StreamInvariant.Clean(View(n, c), l.value))
  }

  lemma CallStep(states: seq<Connection>, events: seq<Event>, n: nat, c: CallId) returns (l: Option<S.Label>)
    requires IsRun(states, events) && n < |events| && c in states[n].calls
    ensures Next(states[n], states[n + 1], c, l)
  {
    RunCalls(states, events, n);
    l := StepFits(states[n], events[n], c);
  }

  lemma CallBegins(states: seq<Connection>, events: seq<Event>, n: nat, c: CallId)
    requires IsRun(states, events) && n < |events| && c !in states[n].calls && c in states[n + 1].calls
    ensures S.IsStart(View(states[n + 1], c))
  {
    RunCalls(states, events, n);
    BeginStarts(states[n], c, events[n].call);
  }

  lemma FirstRun(states: seq<Connection>, n: nat, c: CallId)
    requires n < |states| && c in states[n].calls && S.IsStart(View(states[n], c))
    requires Sees(states, n, c, [View(states[n], c)], seq(n + 1, _ => 0))
    ensures SeesRun(states, n, c, states[n].calls[c].kind, [View(states[n], c)], [], seq(n + 1, _ => 0))
  {
  }

  /** One more event: the call takes a step, or none. */
  lemma NextRun(
    states: seq<Connection>, n: nat, c: CallId, k: S.Kind, ss: seq<S.System>, ls: seq<S.Label>, at: seq<nat>)
    returns (ss': seq<S.System>, ls': seq<S.Label>, at': seq<nat>)
    requires n + 1 < |states| && SeesRun(states, n, c, k, ss, ls, at) && Goes(states[n], states[n + 1], c)
    ensures SeesRun(states, n + 1, c, k, ss', ls', at')
  {
    var l :| Next(states[n], states[n + 1], c, l);
    var s := View(states[n + 1], c);
    SeesMore(states, n, c, ss, at, s);
    if l.None? {
      return ss, ls, at + [|ss| - 1];
    }
    RunMore(k, ss, ls, s, l.value);
    return ss + [s], ls + [l.value], at + [|ss|];
  }

  lemma Sound(k: S.Kind, ss: seq<S.System>, ls: seq<S.Label>, m: nat)
    requires T.IsRun(k, ss, ls) && m <= |ls|
    ensures var s := ss[m];
            && s.client.fate != S.Fate.Protocol && s.server.end.fate != S.Fate.Protocol
            && (!s.cut && s.client.fate == s.server.end.fate == S.Running ==> T.OutputBalance(s) && T.InputBalance(s))
            && T.Taken(s.client.output.queue) <= s.server.output.produced
            && (s.client.fate == S.Completed ==> s.client.output.queue.pushed == s.server.output.produced)
  {
    T.NoProtocolFault(k, ss, ls, m);
    T.OutputDelivered(k, ss, ls, m, m);
    if !ss[m].cut && ss[m].client.fate == ss[m].server.end.fate == S.Running {
      T.CreditIsConserved(k, ss, ls, m);
    }
  }

  /** The event that began a call. */
  lemma {:induction false} BeganAt(states: seq<Connection>, n: nat, c: CallId) returns (b: nat)
    requires n < |states| && c !in states[0].calls && c in states[n].calls
    ensures b < n && c !in states[b].calls && forall i :: b < i <= n ==> c in states[i].calls
  {
    if c in states[n - 1].calls {
      b := BeganAt(states, n - 1, c);
    } else {
      b := n - 1;
    }
  }

  lemma FirstSeen(states: seq<Connection>, events: seq<Event>, b: nat, c: CallId)
    returns (ss: seq<S.System>, ls: seq<S.Label>, at: seq<nat>)
    requires IsRun(states, events) && b < |events| && c !in states[b].calls && c in states[b + 1].calls
    ensures SeesRun(states, b + 1, c, states[b + 1].calls[c].kind, ss, ls, at)
  {
    CallBegins(states, events, b, c);
    FirstSight(states, events, b, c);
    FirstRun(states, b + 1, c);
    return [View(states[b + 1], c)], [], seq(b + 2, _ => 0);
  }

  ghost predicate Goes(n: Connection, n': Connection, c: CallId) {
    exists l :: Next(n, n', c, l)
  }

  /** From the `b`-th state to the `n`-th the call takes steps of the protocol, or none. */
  ghost predicate Steady(states: seq<Connection>, b: nat, n: nat, c: CallId)
    requires n < |states|
  {
    forall i :: b <= i < n ==> Goes(states[i], states[i + 1], c)
  }

  lemma SteadyUpTo(states: seq<Connection>, b: nat, n: nat, c: CallId)
    requires b < n < |states| && Steady(states, b, n, c)
    ensures Steady(states, b, n - 1, c) && Goes(states[n - 1], states[n], c)
  {
  }

  lemma RunSteady(states: seq<Connection>, events: seq<Event>, b: nat, n: nat, c: CallId)
    requires IsRun(states, events) && b <= n <= |events| && forall i :: b <= i <= n ==> c in states[i].calls
    ensures Steady(states, b, n, c)
  {
    forall i | b <= i < n ensures Goes(states[i], states[i + 1], c) {
      var l := CallStep(states, events, i, c);
    }
  }

  lemma {:induction false} SeenOn(
    states: seq<Connection>, b: nat, n: nat, c: CallId, k: S.Kind, ss: seq<S.System>, ls: seq<S.Label>, at: seq<nat>)
    returns (ss': seq<S.System>, ls': seq<S.Label>, at': seq<nat>)
    requires b <= n < |states| && Steady(states, b, n, c) && SeesRun(states, b, c, k, ss, ls, at)
    ensures SeesRun(states, n, c, k, ss', ls', at')
    decreases n
  {
    if b == n {
      return ss, ls, at;
    }
    SteadyUpTo(states, b, n, c);
    ss', ls', at' := SeenOn(states, b, n - 1, c, k, ss, ls, at);
    ss', ls', at' := NextRun(states, n - 1, c, k, ss', ls', at');
  }

  /**
   * What a call sees of a connection's run is a run of the stream protocol:
   * `at` says which of its states the call is in at each state of the connection.
   */
  lemma CallIsRun(states: seq<Connection>, events: seq<Event>, n: nat, c: CallId)
    returns (ss: seq<S.System>, ls: seq<S.Label>, at: seq<nat>)
    requires IsRun(states, events) && n <= |events| && c in states[n].calls
    ensures T.IsRun(states[n].calls[c].kind, ss, ls) && Sees(states, n, c, ss, at)
  {
    var b := BeganAt(states, n, c);
    ss, ls, at := FirstSeen(states, events, b, c);
    RunSteady(states, events, b + 1, n, c);
    ss, ls, at := SeenOn(states, b + 1, n, c, states[b + 1].calls[c].kind, ss, ls, at);
  }

  /**
   * So no call of a connection finds fault with its peer, its credit is
   * conserved, and its consumer has the first items that its handler sent.
   */
  lemma EveryCallIsSound(states: seq<Connection>, events: seq<Event>, n: nat, c: CallId)
    requires IsRun(states, events) && n <= |events| && c in states[n].calls
    ensures var s := View(states[n], c);
            && s.client.fate != S.Fate.Protocol && s.server.end.fate != S.Fate.Protocol
            && (!s.cut && s.client.fate == s.server.end.fate == S.Running ==> T.OutputBalance(s) && T.InputBalance(s))
            && T.Taken(s.client.output.queue) <= s.server.output.produced
            && (s.client.fate == S.Completed ==> s.client.output.queue.pushed == s.server.output.produced)
  {
    var k := states[n].calls[c].kind;
    var ss, ls, at := CallIsRun(states, events, n, c);
    var m := |ls|;
    assert ss[m] == View(states[n], c);
    Sound(k, ss, ls, m);
  }
}
