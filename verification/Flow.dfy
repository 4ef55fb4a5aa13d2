/**
 * Flow control: the credit window a sender waits on and the queue a consumer
 * waits on.
 *
 * The two classes keep what the runtime keeps: a list of waiting promises and,
 * for the queue, the buffered values. A promise is a ticket, numbered by the
 * order of the calls that made it; calling its resolve or reject function
 * appends to `settled`. The two datatypes beside them are what the rest of the
 * model uses: a counter with two totals, and a list with a read position.
 */
module Flow {

  function Min(a: nat, b: nat): nat { if a <= b then a else b }

  const INITIAL_STREAM_CREDIT: nat := 16

  /**
   * What a credit window amounts to: `issued` calls of acquire so far, the
   * first `served` of them given a credit, and `credit` left over.
   */
  datatype Window = Window(credit: nat, closed: bool, issued: nat, served: nat) {

    /** Credit and waiting callers are never both there. */
    ghost predicate Ok() {
      served <= issued && (!closed && credit > 0 ==> served == issued)
    }

    function Acquire(): Window {
      if !closed && credit > 0 then Window(credit - 1, closed, issued + 1, served + 1)
      else this.(issued := issued + 1)
    }

    /** A window frame arrives; `n` is positive. */
    function Grant(n: nat): Window {
      if closed then this
      else
        var waiting := if served <= issued then issued - served else 0;
        var woken := Min(credit + n, waiting);
        this.(credit := credit + n - woken, served := served + woken)
    }

    function Close(): Window { this.(closed := true) }
  }

  const EMPTY_WINDOW := Window(0, false, 0, 0)

  /** The next `n` tickets from `first` on. */
  ghost function Tickets(first: nat, n: nat): (t: seq<nat>)
    ensures |t| == n && forall i :: 0 <= i < n ==> t[i] == first + i
  {
    seq(n, i => first + i)
  }

  datatype Settlement = Resolved(ticket: nat) | Rejected(ticket: nat)

  class CreditWindow {
    var credit: int
    var closed: bool
    var waiters: seq<nat>
    var settled: seq<Settlement>
    ghost var served: nat

    /** Tickets are settled in the order they were drawn, credits before rejections. */
    ghost predicate Valid()
      reads this
    {
      && 0 <= credit
      && served <= |settled|
      && (forall i :: 0 <= i < |settled| ==>
            settled[i] == if i < served then Resolved(i) else Rejected(i))
      && waiters == Tickets(|settled|, |waiters|)
      && (closed ==> waiters == [])
      && (!closed ==> served == |settled| && (credit > 0 ==> waiters == []))
    }

    ghost function View(): (w: Window)
      reads this
      requires Valid()
      ensures w.served <= w.issued && (!w.closed && w.credit > 0 ==> w.served == w.issued)
    {
      Window(credit, closed, |settled| + |waiters|, served)
    }

    constructor ()
      ensures Valid() && var w := View(); !w.closed && w.credit == w.issued == w.served == 0
    {
      credit, closed, waiters, settled, served := 0, false, [], [], 0;
    }

    method Acquire() returns (ticket: nat)
      requires Valid()
      modifies this
      ensures Valid() && View() == old(View()).Acquire()
      ensures ticket == old(View()).issued && old(settled) <= settled
    {
      ticket := |settled| + |waiters|;
      if closed {
        settled := settled + [Rejected(ticket)];
        return;
      }
      if credit > 0 {
        credit := credit - 1;
        settled := settled + [Resolved(ticket)];
        served := served + 1;
        return;
      }
      waiters := waiters + [ticket];
    }

    /** False stands for the ProtocolError thrown for credit that is not positive. */
    method Grant(n: int) returns (ok: bool)
      requires Valid()
      modifies this
      ensures Valid() && ok == (n > 0) && old(settled) <= settled
      ensures View() == if n > 0 then old(View()).Grant(n) else old(View())
    {
      if n <= 0 {
        return false;
      }
      ok := true;
      if closed {
        return;
      }
      credit := credit + n;
      while credit > 0 && |waiters| > 0
        invariant !closed && 0 <= credit && served == |settled| && old(settled) <= settled
        invariant forall i :: 0 <= i < |settled| ==> settled[i] == Resolved(i)
        invariant waiters == Tickets(|settled|, |waiters|)
        invariant credit + |settled| == old(credit + |settled|) + n
        invariant |settled| + |waiters| == old(|settled| + |waiters|)
      {
        credit := credit - 1;
        settled := settled + [Resolved(waiters[0])];
        served := served + 1;
        waiters := waiters[1..];
      }
    }

    method Close()
      requires Valid()
      modifies this
      ensures Valid() && View() == old(View()).Close() && old(settled) <= settled
    {
      if closed {
        return;
      }
      closed := true;
      while |waiters| > 0
        invariant closed && served == old(served) <= |settled| && credit == old(credit) && old(settled) <= settled
        invariant forall i :: 0 <= i < |settled| ==> settled[i] == if i < served then Resolved(i) else Rejected(i)
        invariant waiters == Tickets(|settled|, |waiters|)
        invariant |settled| + |waiters| == old(|settled| + |waiters|)
      {
        settled := settled + [Rejected(waiters[0])];
        waiters := waiters[1..];
      }
    }
  }

  // --- The consumer's queue ---------------------------------------------------

  datatype Mode = Live | Ended | Failed

  /**
   * What the queue amounts to: every value accepted so far, the number of them
   * handed out, the number of calls of next, and how many of those saw the end.
   * The first `taken` reads got a value, the next `ends` the end, the others the
   * error; while the queue is live those others wait.
   */
  datatype Queue<V> = Queue(pushed: seq<V>, taken: nat, asked: nat, mode: Mode, ends: nat) {

    /** Buffered values and waiting readers are never both there, and no read sees the end before a value. */
    ghost predicate Ok() {
      && taken <= |pushed| && taken + ends <= asked
      && (taken < |pushed| ==> asked == taken)
      && (mode == Live ==> ends == 0)
      && (mode == Ended ==> taken + ends == asked)
    }

    /** The values still buffered. */
    function Values(): seq<V>
      requires taken <= |pushed|
    {
      pushed[taken..]
    }

    function Push(v: V): Queue<V> {
      if mode != Live then this
      else this.(pushed := pushed + [v], taken := if taken < asked then taken + 1 else taken)
    }

    function Next(): Queue<V> {
      this.(asked := asked + 1, taken := if taken < |pushed| then taken + 1 else taken,
            ends := if taken >= |pushed| && mode == Ended then ends + 1 else ends)
    }

    /** The readers left waiting see the end. */
    function Close(): Queue<V> {
      if mode == Live then this.(mode := Ended, ends := if taken <= asked then asked - taken else 0) else this
    }

    function Fail(): Queue<V> { this.(mode := Failed) }
  }

  datatype Delivery<V> = Value(ticket: nat, value: V) | Done(ticket: nat) | Failure(ticket: nat)

  class AsyncQueue<V> {
    var values: seq<V>
    var waiters: seq<nat>
    var ended: bool
    var failed: bool
    var settled: seq<Delivery<V>>
    ghost var taken: nat
    ghost var ends: nat
    ghost var pushed: seq<V>

    /**
     * Tickets are settled in order: values first, then the ends seen before any
     * failure, then the failures.
     */
    ghost predicate Valid()
      reads this
    {
      && taken + ends <= |settled| && taken <= |pushed| && values == pushed[taken..]
      && (forall i :: 0 <= i < taken ==> settled[i] == Value(i, pushed[i]))
      && (forall i :: taken <= i < |settled| ==> settled[i] == if i < taken + ends then Done(i) else Failure(i))
      && waiters == Tickets(|settled|, |waiters|)
      && (values != [] ==> waiters == [] && taken == |settled|)
      && (ended ==> waiters == [])
      && (!ended ==> taken == |settled|)
      && (!failed ==> taken + ends == |settled|)
      && (failed ==> ended)
    }

    ghost function View(): (q: Queue<V>)
      reads this
      requires Valid()
      ensures q.taken <= |q.pushed| && q.taken + q.ends <= q.asked && q.Values() == values
      ensures q.taken < |q.pushed| ==> q.asked == q.taken
      ensures (q.mode == Live ==> q.ends == 0) && (q.mode == Ended ==> q.taken + q.ends == q.asked)
    {
      Queue(pushed, taken, |settled| + |waiters|,
            if failed then Failed else if ended then Ended else Live, ends)
    }

    constructor ()
      ensures Valid() && var q := View(); q.pushed == [] && q.taken == q.asked == q.ends == 0 && q.mode == Live
    {
      values, waiters, ended, failed, settled := [], [], false, false, [];
      taken, ends, pushed := 0, 0, [];
    }

    method Push(value: V)
      requires Valid()
      modifies this
      ensures Valid() && View() == old(View()).Push(value) && old(settled) <= settled
    {
      if ended {
        return;
      }
      if |waiters| > 0 {
        settled := settled + [Value(waiters[0], value)];
        waiters := waiters[1..];
        taken, pushed := taken + 1, pushed + [value];
      } else {
        values := values + [value];
        pushed := pushed + [value];
      }
    }

    method Close()
      requires Valid()
      modifies this
      ensures Valid() && View() == old(View()).Close() && old(settled) <= settled
    {
      if ended {
        return;
      }
      ended := true;
      Flush();
    }

    method Fail()
      requires Valid()
      modifies this
      ensures Valid() && View() == old(View()).Fail() && old(settled) <= settled
    {
      if failed {
        return;
      }
      ended := true;
      failed := true;
      Flush();
    }

    method Next() returns (ticket: nat)
      requires Valid()
      modifies this
      ensures Valid() && View() == old(View()).Next()
      ensures ticket == old(View()).asked && old(settled) <= settled
    {
      ticket := |settled| + |waiters|;
      if |values| > 0 {
        settled := settled + [Value(ticket, values[0])];
        taken := taken + 1;
        values := values[1..];
        return;
      }
      if failed {
        settled := settled + [Failure(ticket)];
        return;
      }
      if ended {
        settled := settled + [Done(ticket)];
        ends := ends + 1;
        return;
      }
      waiters := waiters + [ticket];
    }

    /** Everything in Valid that does not wait for `Flush`. */
    ghost predicate Flushable()
      reads this
    {
      && taken + ends <= |settled| && taken <= |pushed| && values == pushed[taken..]
      && (forall i :: 0 <= i < taken ==> settled[i] == Value(i, pushed[i]))
      && (forall i :: taken <= i < |settled| ==> settled[i] == if i < taken + ends then Done(i) else Failure(i))
      && waiters == Tickets(|settled|, |waiters|)
      && (values != [] ==> waiters == [] && taken == |settled|)
      && (!failed ==> taken + ends == |settled|)
      && ended
    }

    /**
     * Settle the readers left waiting when the queue ends. The first loop of the
     * runtime hands values to readers; it has none to hand out here.
     */
    method Flush()
      requires Flushable()
      modifies this
      ensures Valid()
      ensures values == old(values) && ended && failed == old(failed) && taken == old(taken) && pushed == old(pushed)
      ensures |settled| == old(|settled| + |waiters|) && old(settled) <= settled
      ensures ends == if failed then old(ends) else old(ends + |waiters|)
    {
      assert !(|values| > 0 && |waiters| > 0);
      if |values| > 0 || |waiters| == 0 {
        return;
      }
      while |waiters| > 0
        invariant Flushable() && values == [] && failed == old(failed) && taken == old(taken)
        invariant pushed == old(pushed) && old(settled) <= settled
        invariant |settled| + |waiters| == old(|settled| + |waiters|)
        invariant if failed then ends == old(ends) else ends + |waiters| == old(ends + |waiters|)
      {
        if failed {
          settled := settled + [Failure(waiters[0])];
        } else {
          settled := settled + [Done(waiters[0])];
          ends := ends + 1;
        }
        waiters := waiters[1..];
      }
    }
  }

  // --- Laws over every history of calls ---------------------------------------

  datatype WindowCall = Acquire | Grant(n: nat) | CloseWindow

  function WindowAfter(calls: seq<WindowCall>): (w: Window)
    ensures w.Ok()
  {
    if calls == [] then EMPTY_WINDOW
    else
      var w := WindowAfter(calls[..|calls| - 1]);
      match calls[|calls| - 1]
      case Acquire => w.Acquire()
      case Grant(n) => w.Grant(n)
      case CloseWindow => w.Close()
  }

  /** The calls made before the first close. */
  function BeforeClose(calls: seq<WindowCall>): (r: seq<WindowCall>)
    ensures |r| <= |calls|
  {
    if calls == [] || calls[0] == CloseWindow then [] else [calls[0]] + BeforeClose(calls[1..])
  }

  function TotalGranted(calls: seq<WindowCall>): nat {
    if calls == [] then 0
    else (if calls[0].Grant? then calls[0].n else 0) + TotalGranted(calls[1..])
  }

  function Acquires(calls: seq<WindowCall>): nat {
    if calls == [] then 0
    else (if calls[0].Acquire? then 1 else 0) + Acquires(calls[1..])
  }

  lemma {:induction false} TotalsSnoc(calls: seq<WindowCall>, last: WindowCall)
    ensures TotalGranted(calls + [last]) == TotalGranted(calls) + if last.Grant? then last.n else 0
    ensures Acquires(calls + [last]) == Acquires(calls) + if last.Acquire? then 1 else 0
    ensures BeforeClose(calls + [last]) ==
            if BeforeClose(calls) == calls && last != CloseWindow then calls + [last] else BeforeClose(calls)
  {
    if calls == [] {
      assert [last][1..] == [];
    } else {
      assert (calls + [last])[1..] == calls[1..] + [last];
      TotalsSnoc(calls[1..], last);
    }
  }

  /**
   * A window is a counter: whatever the history, the callers served are the
   * first ones, as many as there was credit for, and no credit is lost.
   */
  lemma {:induction false} WindowCountsCredit(calls: seq<WindowCall>)
    ensures var w, open := WindowAfter(calls), BeforeClose(calls);
            && w.issued == Acquires(calls)
            && w.credit + w.served == TotalGranted(open)
            && w.served == Min(Acquires(open), TotalGranted(open))
            && (w.closed <==> open != calls)
  {
    if calls != [] {
      var init, last := calls[..|calls| - 1], calls[|calls| - 1];
      assert calls == init + [last];
      WindowCountsCredit(init);
      TotalsSnoc(init, last);
    }
  }

  datatype QueueCall<V> = Push(v: V) | Next | CloseQueue | FailQueue

  function QueueAfter<V>(calls: seq<QueueCall<V>>): (q: Queue<V>)
    ensures q.Ok()
  {
    if calls == [] then Queue([], 0, 0, Live, 0)
    else
      var q := QueueAfter(calls[..|calls| - 1]);
      match calls[|calls| - 1]
      case Push(v) => q.Push(v)
      case Next => q.Next()
      case CloseQueue => q.Close()
      case FailQueue => q.Fail()
  }

  /** The values pushed before the queue was first closed or failed. */
  function Accepted<V>(calls: seq<QueueCall<V>>): seq<V> {
    if calls == [] || calls[0].CloseQueue? || calls[0].FailQueue? then []
    else (if calls[0].Push? then [calls[0].v] else []) + Accepted(calls[1..])
  }

  predicate StillLive<V>(calls: seq<QueueCall<V>>) {
    forall i :: 0 <= i < |calls| ==> !calls[i].CloseQueue? && !calls[i].FailQueue?
  }

  function Reads<V>(calls: seq<QueueCall<V>>): nat {
    if calls == [] then 0 else (if calls[0].Next? then 1 else 0) + Reads(calls[1..])
  }

  lemma {:induction false} QueueTotalsSnoc<V>(calls: seq<QueueCall<V>>, last: QueueCall<V>)
    ensures Reads(calls + [last]) == Reads(calls) + if last.Next? then 1 else 0
    ensures Accepted(calls + [last]) ==
            Accepted(calls) + if StillLive(calls) && last.Push? then [last.v] else []
  {
    if calls == [] {
      assert [last][1..] == [];
    } else {
      assert (calls + [last])[1..] == calls[1..] + [last];
      QueueTotalsSnoc(calls[1..], last);
      assert StillLive(calls) <==> !calls[0].CloseQueue? && !calls[0].FailQueue? && StillLive(calls[1..]);
    }
  }

  predicate HasClose<V>(calls: seq<QueueCall<V>>) { exists i :: 0 <= i < |calls| && calls[i].CloseQueue? }

  predicate HasFail<V>(calls: seq<QueueCall<V>>) { exists i :: 0 <= i < |calls| && calls[i].FailQueue? }

  lemma EndingSnoc<V>(init: seq<QueueCall<V>>, last: QueueCall<V>)
    ensures HasClose(init + [last]) <==> HasClose(init) || last.CloseQueue?
    ensures HasFail(init + [last]) <==> HasFail(init) || last.FailQueue?
    ensures StillLive(init) <==> !HasClose(init) && !HasFail(init)
  {
    var calls := init + [last];
    assert calls[|init|] == last;
    if i :| 0 <= i < |init| && init[i].CloseQueue? {
      assert calls[i].CloseQueue?;
    }
    if i :| 0 <= i < |init| && init[i].FailQueue? {
      assert calls[i].FailQueue?;
    }
  }

  lemma QueueStep<V>(calls: seq<QueueCall<V>>, last: QueueCall<V>)
    ensures QueueAfter(calls + [last]) ==
            var q := QueueAfter(calls);
            match last
            case Push(v) => q.Push(v)
            case Next => q.Next()
            case CloseQueue => q.Close()
            case FailQueue => q.Fail()
  {
    assert (calls + [last])[..|calls|] == calls;
  }

  lemma {:induction false} QueueModes<V>(calls: seq<QueueCall<V>>)
    ensures var q := QueueAfter(calls);
            && (q.mode == Live <==> !HasClose(calls) && !HasFail(calls))
            && (q.mode == Failed <==> HasFail(calls))
  {
    if calls != [] {
      var init, last := calls[..|calls| - 1], calls[|calls| - 1];
      assert calls == init + [last];
      QueueModes(init);
      EndingSnoc(init, last);
      QueueStep(init, last);
    }
  }

  lemma {:induction false} QueueCounts<V>(calls: seq<QueueCall<V>>)
    ensures var q := QueueAfter(calls);
            q.pushed == Accepted(calls) && q.asked == Reads(calls) && q.taken == Min(|q.pushed|, q.asked)
  {
    if calls != [] {
      var init, last := calls[..|calls| - 1], calls[|calls| - 1];
      assert calls == init + [last];
      QueueCounts(init);
      QueueModes(init);
      QueueTotalsSnoc(init, last);
      EndingSnoc(init, last);
      QueueStep(init, last);
    }
  }

  /**
   * A queue is first in, first out: the k-th read takes the k-th value accepted,
   * and every value accepted is taken before a read sees the end or the error.
   */
  lemma QueueIsFifo<V>(calls: seq<QueueCall<V>>)
    ensures var q := QueueAfter(calls);
            && q.pushed == Accepted(calls)
            && q.asked == Reads(calls)
            && q.taken == Min(|Accepted(calls)|, Reads(calls))
            && (q.mode == Live <==> !HasClose(calls) && !HasFail(calls))
            && (q.mode == Failed <==> HasFail(calls))
  {
    QueueModes(calls);
    QueueCounts(calls);
  }

  /** The calls made before the first failure. */
  function BeforeFail<V>(calls: seq<QueueCall<V>>): seq<QueueCall<V>> {
    if calls == [] || calls[0].FailQueue? then [] else [calls[0]] + BeforeFail(calls[1..])
  }

  lemma {:induction false} BeforeFailSnoc<V>(calls: seq<QueueCall<V>>, last: QueueCall<V>)
    ensures BeforeFail(calls + [last]) ==
            if HasFail(calls) || last.FailQueue? then BeforeFail(calls) else calls + [last]
    ensures !HasFail(calls) ==> BeforeFail(calls) == calls
  {
    if calls == [] {
      assert [last][1..] == [];
    } else {
      assert (calls + [last])[1..] == calls[1..] + [last];
      BeforeFailSnoc(calls[1..], last);
      assert HasFail(calls) <==> calls[0].FailQueue? || HasFail(calls[1..]) by { FailHead(calls); }
    }
  }

  lemma FailHead<V>(calls: seq<QueueCall<V>>)
    requires calls != []
    ensures HasFail(calls) <==> calls[0].FailQueue? || HasFail(calls[1..])
  {
    if i :| 0 <= i < |calls| && calls[i].FailQueue? {
      assert i > 0 ==> calls[1..][i - 1].FailQueue?;
    }
    if i :| 0 <= i < |calls[1..]| && calls[1..][i].FailQueue? {
      assert calls[i + 1].FailQueue?;
    }
  }

  /**
   * A read sees the end exactly if the queue was closed before it failed, and
   * the read, made before the failure, found no value left.
   */
  lemma {:induction false} EndsBeforeFailure<V>(calls: seq<QueueCall<V>>)
    ensures var q, open := QueueAfter(calls), BeforeFail(calls);
            q.ends == if HasClose(open) then Reads(open) - Min(|Accepted(calls)|, Reads(open)) else 0
  {
    if calls != [] {
      var init, last := calls[..|calls| - 1], calls[|calls| - 1];
      assert calls == init + [last];
      EndsBeforeFailure(init);
      QueueIsFifo(init);
      QueueTotalsSnoc(init, last);
      BeforeFailSnoc(init, last);
      EndingSnoc(init, last);
      QueueStep(init, last);
    }
  }
}
