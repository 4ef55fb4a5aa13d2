/**
 * In-process fan-out with a bounded history: publishing to subscribers, and
 * subscribing after a cursor.
 */
module Topic {

  import opened Wrappers

  type Payload(==, 0, !new)

  /** A published item and its position. */
  datatype Item = Item(cursor: int, payload: Payload)

  /** Positions grow strictly in the order of publication. */
  ghost predicate Increasing(log: seq<Item>) {
    forall i, j :: 0 <= i < j < |log| ==> log[i].cursor < log[j].cursor
  }

  /** The items still kept, the latest `keep` of the log. */
  function Kept(log: seq<Item>, keep: nat): seq<Item> {
    if |log| <= keep then log else log[|log| - keep..]
  }

  /** The items a topic that keeps some no longer has. */
  function Evicted(log: seq<Item>, keep: nat): seq<Item> {
    if keep == 0 || |log| <= keep then [] else log[..|log| - keep]
  }

  /** A topic with a history keeps the latest items, as many as it may, and drops the others. */
  lemma HistoryIsLatest(log: seq<Item>, keep: nat)
    requires keep > 0
    ensures Evicted(log, keep) + Kept(log, keep) == log
    ensures |Kept(log, keep)| == if |log| < keep then |log| else keep
  {
  }

  function LastEvicted(log: seq<Item>, keep: nat): Option<int> {
    var gone := Evicted(log, keep);
    if gone == [] then None else Some(gone[|gone| - 1].cursor)
  }

  function Newer(items: seq<Item>, after: int): seq<Item> { Filter(items, (x: Item) => x.cursor > after) }

  /** What a subscription after a cursor begins with; `None` when it is refused. */
  function Replay(log: seq<Item>, keep: nat, after: Option<int>): Option<seq<Item>> {
    if after.None? || keep == 0 then Some([])
    else if LastEvicted(log, keep).Some? && after.value < LastEvicted(log, keep).value then None
    else Some(Newer(Kept(log, keep), after.value))
  }

  /** In a log with growing positions the newer items are a tail of it. */
  lemma {:induction false} NewerIsTail(items: seq<Item>, after: int, n: nat)
    requires n <= |items|
    requires forall i :: 0 <= i < n ==> items[i].cursor <= after
    requires forall i :: n <= i < |items| ==> items[i].cursor > after
    ensures Newer(items, after) == items[n..]
  {
    if items != [] {
      if n > 0 {
        NewerIsTail(items[1..], after, n - 1);
        assert items[n..] == items[1..][n - 1..];
      } else {
        NewerIsTail(items[1..], after, 0);
        assert items == [items[0]] + items[1..];
      }
    }
  }

  /** How many items of the log are at or before the cursor. */
  function Seen(log: seq<Item>, after: int): (n: nat)
    ensures n <= |log|
  {
    if log == [] then 0
    else if log[|log| - 1].cursor <= after then |log|
    else Seen(log[..|log| - 1], after)
  }

  lemma {:induction false} SeenSplits(log: seq<Item>, after: int)
    requires Increasing(log)
    ensures forall i :: 0 <= i < Seen(log, after) ==> log[i].cursor <= after
    ensures forall i :: Seen(log, after) <= i < |log| ==> log[i].cursor > after
  {
    if log != [] && log[|log| - 1].cursor > after {
      SeenSplits(log[..|log| - 1], after);
    }
  }

  lemma RefusedWhenGone(log: seq<Item>, keep: nat, after: int)
    requires Increasing(log) && keep > 0
    ensures Replay(log, keep, Some(after)).None? <==> exists x <- Evicted(log, keep) :: x.cursor > after
  {
    var gone := Evicted(log, keep);
    if gone != [] {
      var last := gone[|gone| - 1];
      assert last in gone;
      forall x | x in gone ensures x.cursor <= last.cursor {
        var i :| 0 <= i < |gone| && gone[i] == x;
        assert log[i] == x && log[|gone| - 1] == last;
      }
    }
  }

  lemma KeptHasNewer(log: seq<Item>, keep: nat, after: int)
    requires Increasing(log) && keep > 0 && Replay(log, keep, Some(after)).Some?
    ensures Newer(Kept(log, keep), after) == Newer(log, after) == log[Seen(log, after)..]
  {
    var n, m := Seen(log, after), |Evicted(log, keep)|;
    SeenSplits(log, after);
    NewerIsTail(log, after, n);
    assert m > 0 ==> LastEvicted(log, keep) == Some(log[m - 1].cursor);
    assert m <= n;
    var kept := Kept(log, keep);
    assert kept == log[m..];
    NewerIsTail(kept, after, n - m);
  }

  /**
   * With a history, a subscription after a cursor is refused exactly when an
   * item newer than the cursor is no longer kept; otherwise it begins with every
   * newer item of the log.
   */
  lemma ReplaySkipsNothing(log: seq<Item>, keep: nat, after: int)
    requires Increasing(log) && keep > 0
    ensures Replay(log, keep, Some(after)).None? <==> exists x <- Evicted(log, keep) :: x.cursor > after
    ensures Replay(log, keep, Some(after)).Some? ==>
              Replay(log, keep, Some(after)).value == Newer(log, after) == log[Seen(log, after)..]
  {
    RefusedWhenGone(log, keep, after);
    if Replay(log, keep, Some(after)).Some? {
      KeptHasNewer(log, keep, after);
    }
  }

  // --- A subscriber's queue ----------------------------------------------------------------------------

  /** Registered with the topic, cut off for falling too far behind, or ended with the topic. */
  datatype Ending = Open | CutOff | Over

  /** What a subscriber amounts to: the items it has not been asked for, and how it stands. */
  datatype Feed = Feed(items: seq<Item>, ending: Ending) {

    /** An item is published: one too many cuts the subscriber off. */
    function Offered(item: Item, queueSize: nat): Feed {
      if ending != Open then this
      else if |items| >= queueSize then this.(ending := CutOff)
      else this.(items := items + [item])
    }

    function Ended(): Feed { if ending == Open then this.(ending := Over) else this }

    function Taken(): Feed { if items == [] then this else this.(items := items[1..]) }
  }

  datatype Next = Got(item: Item) | Fails | Done | Waits

  // --- The objects -----------------------------------------------------------------------------------

  class Subscriber {
    var items: seq<Item>
    var failed: bool
    var closed: bool

    function View(): Feed
      reads this
    {
      Feed(items, if failed then CutOff else if closed then Over else Open)
    }

    constructor (items: seq<Item>)
      ensures View() == Feed(items, Open)
    {
      this.items, failed, closed := items, false, false;
    }

    /** What `next` does before it waits: items first, then the failure or the end. */
    method TryNext() returns (next: Next)
      modifies this
      ensures View() == old(View()).Taken()
      ensures next == if old(items) != [] then Got(old(items)[0])
                      else match old(View()).ending case CutOff => Fails case Over => Done case Open => Waits
    {
      if items != [] {
        next := Got(items[0]);
        items := items[1..];
        return;
      }
      next := if failed then Fails else if closed then Done else Waits;
    }
  }

  class Topic {
    const keep: nat
    const queueSize: nat
    var history: seq<Item>
    var evicted: Option<int>
    var closed: bool
    var subscribers: set<Subscriber>
    /** Everything published. */
    ghost var log: seq<Item>

    ghost predicate Valid()
      reads this, subscribers
    {
      && queueSize >= 1
      && (keep > 0 ==> history == Kept(log, keep))
      && (keep == 0 ==> history == [])
      && evicted == LastEvicted(log, keep)
      && (closed ==> subscribers == {})
      && (forall s <- subscribers :: s.View().ending == Open)
    }

    constructor (keep: nat, queueSize: nat)
      requires queueSize >= 1
      ensures Valid() && this.keep == keep && this.queueSize == queueSize && log == [] && subscribers == {} && !closed
    {
      this.keep, this.queueSize := keep, queueSize;
      history, evicted, closed, subscribers, log := [], None, false, {}, [];
    }

    /** False stands for the error thrown by a closed topic. */
    method Publish(item: Item) returns (ok: bool)
      requires Valid()
      modifies this, subscribers
      ensures Valid() && ok == !old(closed) && closed == old(closed)
      ensures !ok ==> log == old(log) && subscribers == old(subscribers)
      ensures ok ==> log == old(log) + [item]
      ensures ok ==> forall s <- old(subscribers) :: s.View() == old(s.View()).Offered(item, queueSize)
      ensures ok ==> forall s :: s in subscribers <==> s in old(subscribers) && s.View().ending == Open
    {
      if closed {
        return false;
      }
      if keep > 0 {
        if |history| == keep {
          evicted := Some(history[0].cursor);
          history := history[1..];
        }
        history := history + [item];
      }
      Published(old(log), keep, item);
      log := log + [item];
      var todo := subscribers;
      ghost var all := subscribers;
      while todo != {}
        invariant todo <= all == old(subscribers) && todo <= subscribers <= all && !closed
        invariant log == old(log) + [item]
        invariant history == (if keep > 0 then Kept(log, keep) else []) && evicted == LastEvicted(log, keep)
        invariant forall s <- todo :: s.View() == old(s.View())
        invariant forall s <- all - todo ::
                    s.View() == old(s.View()).Offered(item, queueSize) && (s in subscribers <==> s.View().ending == Open)
        decreases todo
      {
        var s :| s in todo;
        if |s.items| >= queueSize {
          subscribers := subscribers - {s};
          s.failed := true;
        } else {
          s.items := s.items + [item];
        }
        todo := todo - {s};
      }
      return true;
    }

    /** `None`: the topic is closed, or the cursor is older than the history. */
    method Subscribe(after: Option<int>) returns (r: Option<Subscriber>)
      requires Valid()
      modifies this
      ensures Valid() && log == old(log) && closed == old(closed)
      ensures r.Some? <==> !closed && Replay(log, keep, after).Some?
      ensures r.Some? ==>
                && fresh(r.value) && subscribers == old(subscribers) + {r.value}
                && r.value.View() == Feed(Replay(log, keep, after).value, Open)
      ensures r.None? ==> subscribers == old(subscribers)
    {
      if closed {
        return None;
      }
      var items := [];
      if after.Some? && keep > 0 {
        if evicted.Some? && after.value < evicted.value {
          return None;
        }
        var i := 0;
        while i < |history|
          invariant 0 <= i <= |history| && unchanged(this)
          invariant items == Newer(history[..i], after.value)
        {
          assert history[..i + 1] == history[..i] + [history[i]];
          FilterConcat(history[..i], [history[i]], (x: Item) => x.cursor > after.value);
          if history[i].cursor > after.value {
            items := items + [history[i]];
          }
          i := i + 1;
        }
        assert history[..i] == history;
      }
      var s := new Subscriber(items);
      subscribers := subscribers + {s};
      return Some(s);
    }

    method Close()
      requires Valid()
      modifies this, subscribers
      ensures Valid() && closed && subscribers == {} && log == old(log)
      ensures forall s <- old(subscribers) :: s.View() == old(s.View()).Ended()
    {
      closed := true;
      var todo := subscribers;
      ghost var all := subscribers;
      while todo != {}
        invariant todo <= all == old(subscribers) == subscribers && closed && log == old(log)
        invariant history == old(history) && evicted == old(evicted)
        invariant forall s <- todo :: s.View() == old(s.View())
        invariant forall s <- all - todo :: s.View() == old(s.View()).Ended()
        decreases todo
      {
        var s :| s in todo;
        s.closed := true;
        todo := todo - {s};
      }
      subscribers := {};
    }
  }

  /** How one more item changes what is kept and what is gone. */
  lemma Published(log: seq<Item>, keep: nat, item: Item)
    ensures keep > 0 ==>
              Kept(log + [item], keep) ==
              (if |Kept(log, keep)| == keep then Kept(log, keep)[1..] else Kept(log, keep)) + [item]
    ensures LastEvicted(log + [item], keep) ==
            if keep > 0 && |Kept(log, keep)| == keep then Some(Kept(log, keep)[0].cursor) else LastEvicted(log, keep)
  {
  }
}
