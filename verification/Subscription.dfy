/**
 * A resumable subscription to a topic: successive streams presented as one.
 * The machine has one topic, one subscriber, and a connection that may be lost
 * at any time; what it promises is that nothing is skipped.
 */
module Subscription {

  import opened Wrappers
  import opened Topic

  // --- The client's side -----------------------------------------------------------------------

  /** What the next answer of the current stream is. */
  datatype Reply = Arrives(item: Item) | Interrupted | Broken | EndOfStream

  /**
   * The subscription as its caller holds it: whether a stream is open, the
   * cursor of the last item, and the reconnect delays left until the next item
   * arrives; `None` when the policy sets no limit.
   */
  datatype Client = Client(open: bool, last: Option<int>, done: bool, delays: Option<nat>) {

    function Opened(): Client { this.(open := true) }

    function Cancelled(): Client { this.(open := false, done := true) }

    /** The cursor that a new stream is opened after. */
    function Cursor(first: Option<int>): Option<int> { if last.Some? then last else first }

    /** An answer of the open stream. */
    function React(reply: Reply, attempts: Option<nat>): Client {
      match reply
      case Arrives(item) => this.(last := Some(item.cursor), delays := attempts)
      case EndOfStream => this.(done := true)
      case Broken => this.(open := false, done := true)
      case Interrupted =>
        if delays == Some(0) then this.(open := false, done := true)
        else this.(open := false, delays := if delays.Some? then Some(delays.value - 1) else None)
    }
  }

  function NewClient(attempts: Option<nat>): Client { Client(false, None, false, attempts) }

  /** The client after `replies`, reopening the stream whenever it has to. */
  function AfterReplies(c: Client, replies: seq<Reply>, attempts: Option<nat>): Client {
    if replies == [] then c
    else
      var before := AfterReplies(c, replies[..|replies| - 1], attempts);
      before.Opened().React(replies[|replies| - 1], attempts)
  }

  /** One more answer. */
  lemma AfterRepliesNext(c: Client, replies: seq<Reply>, used: nat, attempts: Option<nat>)
    requires used < |replies|
    ensures AfterReplies(c, replies[..used + 1], attempts) ==
            AfterReplies(c, replies[..used], attempts).Opened().React(replies[used], attempts)
  {
    assert replies[..used + 1][..used] == replies[..used];
  }

  datatype Step = Yields(item: Item) | Throws | Finished | Pending

  /** `opens` records the cursor each stream was opened after. */
  class MeshCallSubscription {
    const first: Option<int>
    const attempts: Option<nat>
    var open: bool
    var last: Option<int>
    var done: bool
    var delays: Option<nat>
    var opens: seq<Option<int>>

    function View(): Client
      reads this
    {
      Client(open, last, done, delays)
    }

    constructor (first: Option<int>, attempts: Option<nat>)
      ensures View() == NewClient(attempts) && opens == [] && this.first == first && this.attempts == attempts
    {
      this.first, this.attempts := first, attempts;
      open, last, done, delays, opens := false, None, false, attempts, [];
    }

    /**
     * One call of `next`, against what the streams answer. Retryable
     * interruptions are passed over, each with a new stream that resumes after
     * the last item handed out, until the delays are used up.
     */
    method Next(replies: seq<Reply>) returns (step: Step, used: nat)
      modifies this
      ensures used <= |replies|
      ensures old(done) ==> step == Finished && used == 0 && View() == old(View()) && opens == old(opens)
      ensures !old(done) ==>
                View() == var c := AfterReplies(old(View()), replies[..used], attempts); if step == Pending then c.Opened() else c
      ensures !old(done) ==>
                match step
                case Yields(item) => used > 0 && replies[used - 1] == Arrives(item)
                case Finished => used > 0 && replies[used - 1] == EndOfStream
                case Throws => done && used > 0 && (replies[used - 1] == Broken || replies[used - 1] == Interrupted)
                case Pending => !done && used == |replies|
      ensures forall i :: 0 <= i < (if step == Pending then used else used - 1) ==> replies[i] == Interrupted
      ensures old(opens) <= opens && forall i :: |old(opens)| <= i < |opens| ==> opens[i] == old(View()).Cursor(first)
      ensures !old(done) ==>
                |opens| == |old(opens)| + (if old(open) then 0 else 1) + (if step == Pending then used else used - 1)
    {
      used := 0;
      while true
        invariant used <= |replies| && last == old(last) && done == old(done)
        invariant done ==> used == 0 && opens == old(opens) && View() == old(View())
        invariant !done ==> View() == AfterReplies(old(View()), replies[..used], attempts)
        invariant old(opens) <= opens && forall i :: |old(opens)| <= i < |opens| ==> opens[i] == old(View()).Cursor(first)
        invariant forall i :: 0 <= i < used ==> replies[i] == Interrupted
        invariant open == (old(open) && used == 0)
        invariant |opens| == |old(opens)| + if used == 0 then 0 else used - 1 + if old(open) then 0 else 1
        decreases |replies| - used
      {
        if done {
          return Finished, used;
        }
        if !open {
          opens := opens + [if last.Some? then last else first];
          open := true;
        }
        if used == |replies| {
          return Pending, used;
        }
        AfterRepliesNext(old(View()), replies, used, attempts);
        used := used + 1;
        var answer := Take(replies[used - 1]);
        if answer.Some? {
          return answer.value, used;
        }
      }
    }

    /** What `next` makes of one answer; `None` when it tries again. */
    method Take(reply: Reply) returns (step: Option<Step>)
      requires open && !done
      modifies this`open, this`last, this`done, this`delays
      ensures View() == old(View()).React(reply, attempts)
      ensures step == match reply
                      case Arrives(item) => Some(Yields(item))
                      case EndOfStream => Some(Finished)
                      case Broken => Some(Throws)
                      case Interrupted => if old(delays) == Some(0) then Some(Throws) else None
    {
      match reply
      case Arrives(item) =>
        delays := attempts;
        last := Some(item.cursor);
        return Some(Yields(item));
      case EndOfStream =>
        done := true;
        return Some(Finished);
      case Broken =>
        open := false;
        done := true;
        return Some(Throws);
      case Interrupted =>
        open := false;
        if delays == Some(0) {
          done := true;
          return Some(Throws);
        }
        if delays.Some? {
          delays := Some(delays.value - 1);
        }
        return None;
    }

    method Cancel()
      modifies this
      ensures View() == old(View()).Cancelled() && opens == old(opens)
    {
      done := true;
      open := false;
    }
  }

  /** Without a limit, no number of interruptions ends a subscription. */
  lemma {:induction false} UnlimitedGoesOn(c: Client, replies: seq<Reply>)
    requires c.delays == None && !c.done && forall r <- replies :: r.Interrupted? || r.Arrives?
    ensures !AfterReplies(c, replies, None).done && AfterReplies(c, replies, None).delays == None
  {
    if replies != [] {
      var n := |replies| - 1;
      assert replies[n] in replies;
      assert forall r <- replies[..n] :: r in replies;
      UnlimitedGoesOn(c, replies[..n]);
    }
  }

  /** How many of the last answers in a row were interruptions. */
  function Streak(replies: seq<Reply>): nat {
    if replies == [] || !replies[|replies| - 1].Interrupted? then 0 else 1 + Streak(replies[..|replies| - 1])
  }

  /**
   * A policy of `n` attempts ends a subscription at the first interruption after
   * `n` in a row; every item starts the count again.
   */
  lemma {:induction false} EndsAfterAttempts(n: nat, replies: seq<Reply>)
    requires forall r <- replies :: r.Interrupted? || r.Arrives?
    requires forall i :: 0 <= i < |replies| ==> Streak(replies[..i]) <= n
    ensures var c := AfterReplies(NewClient(Some(n)), replies, Some(n));
            && (c.done <==> Streak(replies) > n)
            && (!c.done ==> c.delays == Some(n - Streak(replies)))
  {
    if replies != [] {
      var m := |replies| - 1;
      var init := replies[..m];
      assert replies[m] in replies && forall r <- init :: r in replies;
      assert Streak(init) <= n;
      assert forall i :: 0 <= i < m ==> init[..i] == replies[..i];
      EndsAfterAttempts(n, init);
    }
  }

  // --- Topic, connection and subscription together ----------------------------------------------

  /**
   * The current stream: items on their way to the client, and the topic's
   * subscriber. `at` says where in the log the first of them is.
   */
  datatype Stream = Stream(flight: seq<Item>, feed: Feed, at: nat)

  datatype System = System(
    log: seq<Item>,
    closed: bool,
    stream: Option<Stream>,
    client: Client,
    received: seq<Item>,
    start: nat,
    ended: bool)

  datatype Setup = Setup(keep: nat, queueSize: nat, first: Option<int>, attempts: Option<nat>)

  function Start(c: Setup): System { System([], false, None, NewClient(c.attempts), [], 0, false) }

  datatype Label =
    | Publish(item: Item)
    | OpenStream
    | Pull
    | Deliver
    | Lost
    | SlowEnd
    | NormalEnd
    | CloseTopic
    | GiveUp

  predicate Drained(t: Stream) { t.flight == [] && t.feed.items == [] }

  predicate Enabled(s: System, l: Label) {
    match l
    case Publish(item) => !s.closed && (s.log == [] || s.log[|s.log| - 1].cursor < item.cursor)
    case OpenStream => s.stream.None? && !s.client.open && !s.client.done
    case Pull => s.stream.Some? && s.stream.value.feed.items != []
    case Deliver => s.stream.Some? && s.stream.value.flight != []
    case Lost => s.stream.Some?
    case SlowEnd => s.stream.Some? && Drained(s.stream.value) && s.stream.value.feed.ending == CutOff
    case NormalEnd => s.stream.Some? && Drained(s.stream.value) && s.stream.value.feed.ending == Over
    case CloseTopic => !s.closed
    case GiveUp => true
  }

  /** The topic does something to its subscriber, if it has one. */
  function WithFeed(s: System, feed: Feed -> Feed): System {
    if s.stream.None? then s else s.(stream := Some(s.stream.value.(feed := feed(s.stream.value.feed))))
  }

  /** The current stream ends with this answer. */
  function StreamEnds(c: Setup, s: System, reply: Reply): System {
    s.(stream := None, client := s.client.React(reply, c.attempts))
  }

  function After(c: Setup, s: System, l: Label): System
    requires Enabled(s, l)
  {
    match l
    case Publish(item) => WithFeed(s.(log := s.log + [item]), (f: Feed) => f.Offered(item, c.queueSize))
    case OpenStream =>
      var s := s.(client := s.client.Opened());
      if s.closed then StreamEnds(c, s, Broken)
      else
        (match Replay(s.log, c.keep, s.client.Cursor(c.first))
         case None => StreamEnds(c, s, Broken)
         case Some(items) =>
           s.(stream := Some(Stream([], Feed(items, Open), if |items| <= |s.log| then |s.log| - |items| else 0))))
    case Pull =>
      var t := s.stream.value;
      s.(stream := Some(t.(flight := t.flight + [t.feed.items[0]], feed := t.feed.Taken())))
    case Deliver =>
      var t := s.stream.value;
      s.(stream := Some(t.(flight := t.flight[1..], at := t.at + 1)),
         received := s.received + [t.flight[0]],
         client := s.client.React(Arrives(t.flight[0]), c.attempts),
         start := if s.received == [] then t.at else s.start)
    case Lost => StreamEnds(c, s, Interrupted)
    case SlowEnd => StreamEnds(c, s, Interrupted)
    case NormalEnd => StreamEnds(c, s, EndOfStream).(ended := true)
    case CloseTopic => WithFeed(s.(closed := true), (f: Feed) => f.Ended())
    case GiveUp => s.(stream := None, client := s.client.Cancelled())
  }

  /** `items` are the items of the log from `at` on. */
  ghost predicate PartOf(log: seq<Item>, at: nat, items: seq<Item>) {
    at + |items| <= |log| && forall i :: 0 <= i < |items| ==> items[i] == log[at + i]
  }

  ghost predicate StreamOk(log: seq<Item>, closed: bool, t: Stream) {
    && PartOf(log, t.at, t.flight) && PartOf(log, t.at + |t.flight|, t.feed.items)
    && (t.feed.ending != CutOff ==> t.at + |t.flight| + |t.feed.items| == |log|)
    && (t.feed.ending == Over ==> closed)
  }

  /** What was received, from `start` on, and the cursor of the last of it. */
  ghost predicate ReceivedOk(log: seq<Item>, first: Option<int>, received: seq<Item>, start: nat, last: Option<int>) {
    && PartOf(log, start, received)
    && (last == if received == [] then None else Some(received[|received| - 1].cursor))
    && (received != [] && first.Some? ==> start <= Seen(log, first.value))
  }

  /** The stream goes on where the last item received ends; before that, no newer item is left out. */
  ghost predicate Continues(log: seq<Item>, first: Option<int>, received: seq<Item>, start: nat, at: nat) {
    && (received != [] ==> at == start + |received|)
    && (received == [] && first.Some? ==> at <= Seen(log, first.value))
  }

  ghost predicate Inv(c: Setup, s: System) {
    && Increasing(s.log) && ReceivedOk(s.log, c.first, s.received, s.start, s.client.last)
    && (s.stream.Some? ==>
          s.client.open && !s.client.done
          && StreamOk(s.log, s.closed, s.stream.value) && Continues(s.log, c.first, s.received, s.start, s.stream.value.at))
    && (s.ended ==> s.closed && s.client.done && s.stream.None? && (s.received != [] ==> s.start + |s.received| == |s.log|))
  }

  lemma SeenAt(log: seq<Item>, i: nat)
    requires Increasing(log) && i < |log|
    ensures Seen(log, log[i].cursor) == i + 1
  {
    SeenSplits(log, log[i].cursor);
  }

  lemma {:induction false} SeenGrows(log: seq<Item>, item: Item, after: int)
    requires Increasing(log + [item])
    ensures Seen(log, after) <= Seen(log + [item], after)
  {
    assert (log + [item])[..|log|] == log;
  }

  lemma PartGrows(log: seq<Item>, item: Item, at: nat, items: seq<Item>)
    requires PartOf(log, at, items)
    ensures PartOf(log + [item], at, items)
    ensures at + |items| == |log| ==> PartOf(log + [item], at, items + [item])
  {
  }

  lemma PublishStream(log: seq<Item>, item: Item, t: Stream, queueSize: nat)
    requires StreamOk(log, false, t)
    ensures StreamOk(log + [item], false, t.(feed := t.feed.Offered(item, queueSize)))
  {
    PartGrows(log, item, t.at, t.flight);
    PartGrows(log, item, t.at + |t.flight|, t.feed.items);
  }

  lemma PublishReceived(log: seq<Item>, item: Item, first: Option<int>, received: seq<Item>, start: nat, last: Option<int>)
    requires Increasing(log + [item]) && ReceivedOk(log, first, received, start, last)
    ensures ReceivedOk(log + [item], first, received, start, last)
    ensures forall at :: Continues(log, first, received, start, at) ==> Continues(log + [item], first, received, start, at)
  {
    PartGrows(log, item, start, received);
    if first.Some? { SeenGrows(log, item, first.value); }
  }

  lemma Appended(log: seq<Item>, item: Item)
    requires Increasing(log) && (log == [] || log[|log| - 1].cursor < item.cursor)
    ensures Increasing(log + [item])
  {
  }

  lemma PublishInv(c: Setup, s: System, item: Item)
    requires Inv(c, s) && Enabled(s, Publish(item))
    ensures Inv(c, After(c, s, Publish(item)))
  {
    Appended(s.log, item);
    PublishReceived(s.log, item, c.first, s.received, s.start, s.client.last);
    if s.stream.Some? {
      PublishStream(s.log, item, s.stream.value, c.queueSize);
    }
  }

  /** A stream opened after a cursor begins at the first item after it. */
  lemma OpenStreamOk(log: seq<Item>, closed: bool, keep: nat, after: Option<int>)
    requires Increasing(log) && keep > 0 && Replay(log, keep, after).Some?
    ensures var items := Replay(log, keep, after).value;
            && |items| <= |log|
            && StreamOk(log, closed, Stream([], Feed(items, Open), |log| - |items|))
            && (after.Some? ==> |log| - |items| == Seen(log, after.value))
  {
    if after.Some? {
      ReplaySkipsNothing(log, keep, after.value);
    }
  }

  /** The items seen up to the last one received are those received, and what was before them. */
  lemma ReceivedSeen(log: seq<Item>, first: Option<int>, received: seq<Item>, start: nat, last: Option<int>)
    requires Increasing(log) && ReceivedOk(log, first, received, start, last) && received != []
    ensures last.Some? && Seen(log, last.value) == start + |received|
  {
    assert received[|received| - 1] == log[start + |received| - 1];
    SeenAt(log, start + |received| - 1);
  }

  /** The stream opened after the last item received, or after the first cursor, goes on there. */
  lemma OpenContinues(log: seq<Item>, first: Option<int>, received: seq<Item>, start: nat, last: Option<int>, keep: nat)
    requires Increasing(log) && keep > 0 && ReceivedOk(log, first, received, start, last)
    requires Replay(log, keep, if last.Some? then last else first).Some?
    ensures var items := Replay(log, keep, if last.Some? then last else first).value;
            && |items| <= |log|
            && StreamOk(log, false, Stream([], Feed(items, Open), |log| - |items|))
            && Continues(log, first, received, start, |log| - |items|)
  {
    OpenStreamOk(log, false, keep, if last.Some? then last else first);
    if received != [] {
      ReceivedSeen(log, first, received, start, last);
    }
  }

  lemma OpenInv(c: Setup, s: System)
    requires Inv(c, s) && Enabled(s, OpenStream) && c.keep > 0
    ensures Inv(c, After(c, s, OpenStream))
  {
    if !s.closed && Replay(s.log, c.keep, s.client.Cursor(c.first)).Some? {
      OpenContinues(s.log, c.first, s.received, s.start, s.client.last, c.keep);
    }
  }

  lemma PullInv(c: Setup, s: System)
    requires Inv(c, s) && Enabled(s, Pull)
    ensures Inv(c, After(c, s, Pull))
  {
    var t := s.stream.value;
    assert t.feed.items[0] == s.log[t.at + |t.flight|];
    PullStream(s.log, s.closed, t);
  }

  lemma PullStream(log: seq<Item>, closed: bool, t: Stream)
    requires StreamOk(log, closed, t) && t.feed.items != []
    ensures StreamOk(log, closed, t.(flight := t.flight + [t.feed.items[0]], feed := t.feed.Taken()))
  {
  }

  lemma DeliverStream(log: seq<Item>, closed: bool, t: Stream)
    requires StreamOk(log, closed, t) && t.flight != []
    ensures t.flight[0] == log[t.at] && StreamOk(log, closed, t.(flight := t.flight[1..], at := t.at + 1))
  {
  }

  lemma DeliverInv(c: Setup, s: System)
    requires Inv(c, s) && Enabled(s, Deliver)
    ensures Inv(c, After(c, s, Deliver))
  {
    DeliverStream(s.log, s.closed, s.stream.value);
    ReceivedNext(s.log, s.start, s.received, s.stream.value.at, s.stream.value.flight[0]);
  }

  lemma ReceivedNext(log: seq<Item>, start: nat, received: seq<Item>, at: nat, item: Item)
    requires PartOf(log, start, received) && at < |log| && log[at] == item
    requires received != [] ==> at == start + |received|
    ensures PartOf(log, if received == [] then at else start, received + [item])
  {
  }

  lemma StepInv(c: Setup, s: System, l: Label)
    requires Inv(c, s) && Enabled(s, l) && c.keep > 0
    ensures Inv(c, After(c, s, l))
  {
    match l
    case Publish(item) => PublishInv(c, s, item);
    case OpenStream => OpenInv(c, s);
    case Pull => PullInv(c, s);
    case Deliver => DeliverInv(c, s);
    case _ =>
  }

  /** The state after a history of steps; a step that is not enabled is no step. */
  function Run(c: Setup, labels: seq<Label>): System {
    if labels == [] then Start(c)
    else
      var s := Run(c, labels[..|labels| - 1]);
      if Enabled(s, labels[|labels| - 1]) then After(c, s, labels[|labels| - 1]) else s
  }

  lemma {:induction false} RunInv(c: Setup, labels: seq<Label>)
    requires c.keep > 0
    ensures Inv(c, Run(c, labels))
  {
    if labels != [] {
      RunInv(c, labels[..|labels| - 1]);
      var s := Run(c, labels[..|labels| - 1]);
      if Enabled(s, labels[|labels| - 1]) {
        StepInv(c, s, labels[|labels| - 1]);
      }
    }
  }

  /** What was received is one unbroken part of what was published. */
  ghost predicate NoGap(s: System) {
    exists a: nat :: PartOf(s.log, a, s.received)
  }

  /**
   * Over any number of lost connections and slow-subscriber cut-offs, what is
   * received is an unbroken part of the log; a subscription made after a cursor
   * skips nothing newer than it; and one that ends normally got everything up to
   * the end.
   */
  lemma ReceivedWithoutGaps(c: Setup, labels: seq<Label>)
    requires c.keep > 0
    ensures var s := Run(c, labels);
            && NoGap(s) && s.start + |s.received| <= |s.log|
            && (s.received != [] && c.first.Some? ==>
                  forall i :: 0 <= i < s.start ==> s.log[i].cursor <= c.first.value)
            && (s.received != [] && s.ended ==> s.received == s.log[s.start..])
  {
    RunInv(c, labels);
    var s := Run(c, labels);
    assert PartOf(s.log, s.start, s.received);
    if c.first.Some? {
      SeenSplits(s.log, c.first.value);
    }
  }

  // --- Subscribers that fall behind -----------------------------------------------------------------

  /** What the stream has is what was published, with or without a history. */
  ghost predicate Watched(s: System) {
    Increasing(s.log) && (s.stream.Some? ==> StreamOk(s.log, s.closed, s.stream.value))
  }

  lemma WatchedPublish(c: Setup, s: System, item: Item)
    requires Watched(s) && Enabled(s, Publish(item))
    ensures Watched(After(c, s, Publish(item)))
  {
    Appended(s.log, item);
    if s.stream.Some? { PublishStream(s.log, item, s.stream.value, c.queueSize); }
  }

  lemma WatchedOpen(c: Setup, s: System)
    requires Watched(s) && Enabled(s, OpenStream)
    ensures Watched(After(c, s, OpenStream))
  {
    var after := s.client.Cursor(c.first);
    if !s.closed && c.keep > 0 && Replay(s.log, c.keep, after).Some? { OpenStreamOk(s.log, s.closed, c.keep, after); }
  }

  lemma WatchedMoves(c: Setup, s: System, l: Label)
    requires Watched(s) && Enabled(s, l) && (l.Pull? || l.Deliver?)
    ensures Watched(After(c, s, l))
  {
    if l.Pull? {
      PullStream(s.log, s.closed, s.stream.value);
    } else {
      DeliverStream(s.log, s.closed, s.stream.value);
    }
  }

  lemma WatchedStep(c: Setup, s: System, l: Label)
    requires Watched(s) && Enabled(s, l)
    ensures Watched(After(c, s, l))
  {
    match l
    case Publish(item) => WatchedPublish(c, s, item);
    case OpenStream => WatchedOpen(c, s);
    case Pull => WatchedMoves(c, s, l);
    case Deliver => WatchedMoves(c, s, l);
    case _ =>
  }

  lemma {:induction false} RunWatched(c: Setup, labels: seq<Label>)
    ensures Watched(Run(c, labels))
  {
    if labels != [] {
      RunWatched(c, labels[..|labels| - 1]);
      var s := Run(c, labels[..|labels| - 1]);
      if Enabled(s, labels[|labels| - 1]) { WatchedStep(c, s, labels[|labels| - 1]); }
    }
  }

  /** The items published that the stream has not pulled. */
  function Unread(s: System): seq<Item>
    requires s.stream.Some?
  {
    var from := s.stream.value.at + |s.stream.value.flight|;
    if from <= |s.log| then s.log[from..] else []
  }

  /**
   * Publishing cuts a subscriber off exactly if it already has as many unread
   * items as its queue holds; it keeps those, and otherwise it gets the new one
   * as well.
   */
  lemma SlowIsCutOff(c: Setup, labels: seq<Label>, item: Item)
    requires var s := Run(c, labels);
             Enabled(s, Publish(item)) && s.stream.Some? && s.stream.value.feed.ending == Open
    ensures var s, s' := Run(c, labels), Run(c, labels + [Publish(item)]);
            && s'.stream.Some? && s'.stream.value.flight == s.stream.value.flight
            && s'.stream.value.feed ==
               if |Unread(s)| >= c.queueSize then Feed(Unread(s), CutOff) else Feed(Unread(s) + [item], Open)
  {
    RunWatched(c, labels);
    RunNext(c, labels, Publish(item));
    var s := Run(c, labels);
    assert s.stream.value.feed.items == Unread(s);
  }

  // --- Without a history ----------------------------------------------------------------------------

  lemma RunNext(c: Setup, labels: seq<Label>, l: Label)
    ensures Run(c, labels + [l]) ==
            if Enabled(Run(c, labels), l) then After(c, Run(c, labels), l) else Run(c, labels)
  {
    assert (labels + [l])[..|labels|] == labels;
  }

  /** Receive one item, lose the connection, and come back only after another one. */
  function Interruption(a: Item, b: Item, d: Item): seq<Label> {
    [OpenStream] + [Publish(a)] + [Pull] + [Deliver] + [Lost] + [Publish(b)] + [OpenStream] + [Publish(d)] + [Pull] + [Deliver]
  }

  lemma InterruptionSkips(c: Setup, a: Item, b: Item, d: Item)
    requires c.keep == 0 && c.queueSize >= 1 && c.attempts != Some(0) && a.cursor < b.cursor < d.cursor
    ensures var s := Run(c, Interruption(a, b, d));
            s.log == [a, b, d] && s.received == [a, d]
  {
    InterruptionBefore(c, a, b);
    var l7 := [OpenStream] + [Publish(a)] + [Pull] + [Deliver] + [Lost] + [Publish(b)] + [OpenStream];
    RunNext(c, l7, Publish(d));
    RunNext(c, l7 + [Publish(d)], Pull);
    RunNext(c, l7 + [Publish(d)] + [Pull], Deliver);
  }

  lemma InterruptionBefore(c: Setup, a: Item, b: Item)
    requires c.keep == 0 && c.queueSize >= 1 && c.attempts != Some(0) && a.cursor < b.cursor
    ensures var s := Run(c, [OpenStream] + [Publish(a)] + [Pull] + [Deliver] + [Lost] + [Publish(b)] + [OpenStream]);
            s.log == [a, b] && s.received == [a] && s.stream == Some(Stream([], Feed([], Open), 2)) && !s.closed
  {
    FirstItem(c, a);
    var l4 := [OpenStream] + [Publish(a)] + [Pull] + [Deliver];
    RunNext(c, l4, Lost);
    RunNext(c, l4 + [Lost], Publish(b));
    RunNext(c, l4 + [Lost] + [Publish(b)], OpenStream);
  }

  lemma FirstItem(c: Setup, a: Item)
    requires c.keep == 0 && c.queueSize >= 1 && c.attempts != Some(0)
    ensures var s := Run(c, [OpenStream] + [Publish(a)] + [Pull] + [Deliver]);
            s.log == [a] && s.received == [a] && s.stream.Some? && !s.closed && !s.client.done && s.client.last == Some(a.cursor)
            && s.client.delays == c.attempts
  {
    RunNext(c, [], OpenStream);
    assert [] + [OpenStream] == [OpenStream];
    RunNext(c, [OpenStream], Publish(a));
    RunNext(c, [OpenStream] + [Publish(a)], Pull);
    RunNext(c, [OpenStream] + [Publish(a)] + [Pull], Deliver);
  }

  lemma SkippedIsGap(s: System, a: Item, b: Item, d: Item)
    requires s.log == [a, b, d] && s.received == [a, d] && a.cursor < b.cursor < d.cursor
    ensures !NoGap(s)
  {
    forall i: nat ensures !PartOf(s.log, i, s.received) {
      assert s.received[1] == d && s.received[0] == a;
    }
  }

  /** A subscription that never reconnects has one stream at most. */
  ghost predicate OneStream(s: System) {
    && PartOf(s.log, s.start, s.received)
    && s.client.delays == Some(0)
    && (s.stream.Some? ==>
          && s.client.open && StreamOk(s.log, s.closed, s.stream.value)
          && (s.received != [] ==> s.stream.value.at == s.start + |s.received|))
    && (!s.client.open && !s.client.done ==> s.received == [])
  }

  lemma OneStreamPublish(c: Setup, s: System, item: Item)
    requires OneStream(s) && Enabled(s, Publish(item))
    ensures OneStream(After(c, s, Publish(item)))
  {
    PartGrows(s.log, item, s.start, s.received);
    if s.stream.Some? { PublishStream(s.log, item, s.stream.value, c.queueSize); }
  }

  lemma OneStreamMoves(c: Setup, s: System, l: Label)
    requires c.attempts == Some(0) && OneStream(s) && Enabled(s, l) && (l.Pull? || l.Deliver?)
    ensures OneStream(After(c, s, l))
  {
    if l.Pull? {
      PullStream(s.log, s.closed, s.stream.value);
    } else {
      DeliverStream(s.log, s.closed, s.stream.value);
      ReceivedNext(s.log, s.start, s.received, s.stream.value.at, s.stream.value.flight[0]);
    }
  }

  lemma OneStreamStep(c: Setup, s: System, l: Label)
    requires c.keep == 0 && c.attempts == Some(0) && OneStream(s) && Enabled(s, l)
    ensures OneStream(After(c, s, l))
  {
    match l
    case Publish(item) => OneStreamPublish(c, s, item);
    case Pull => OneStreamMoves(c, s, l);
    case Deliver => OneStreamMoves(c, s, l);
    case _ =>
  }

  lemma {:induction false} OneStreamRun(c: Setup, labels: seq<Label>)
    requires c.keep == 0 && c.attempts == Some(0)
    ensures OneStream(Run(c, labels))
  {
    if labels != [] {
      OneStreamRun(c, labels[..|labels| - 1]);
      var s := Run(c, labels[..|labels| - 1]);
      if Enabled(s, labels[|labels| - 1]) {
        OneStreamStep(c, s, labels[|labels| - 1]);
      }
    }
  }

  /** The history is what makes it so: no run has a gap exactly when the topic keeps items, or nobody reconnects. */
  lemma GapFreeIffHistory(c: Setup, p: Payload)
    requires c.queueSize >= 1
    ensures c.keep > 0 || c.attempts == Some(0) <==> forall labels :: NoGap(Run(c, labels))
  {
    if c.keep > 0 {
      forall labels ensures NoGap(Run(c, labels)) {
        ReceivedWithoutGaps(c, labels);
      }
    } else if c.attempts == Some(0) {
      forall labels ensures NoGap(Run(c, labels)) {
        OneStreamRun(c, labels);
      }
    } else {
      var a, b, d := Item(1, p), Item(2, p), Item(3, p);
      InterruptionSkips(c, a, b, d);
      SkippedIsGap(Run(c, Interruption(a, b, d)), a, b, d);
    }
  }
}
