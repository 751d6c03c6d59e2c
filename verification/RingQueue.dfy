/** The ring buffer behind `ArrayQueue` on Arduino.

    The read pointer names the slot before the oldest item, the write pointer the slot
    of the newest, so one slot is always unused.  `Contents` is defined from the slots,
    independently of what `size()` reports. */
module RingQueue {

  // Position k slots after the read pointer.
  function Around(size: nat, k: nat): (j: nat)
    requires size >= 1
    ensures j < size
  {
    k % size
  }

  lemma AroundOnce(size: nat, k: nat)
    requires size >= 1 && k < 2 * size
    ensures Around(size, k) == if k < size then k else k - size
  {
  }

  // The n slots after slot r, in order.
  function SlotsAfter<T>(slots: seq<T>, r: nat, n: nat): (s: seq<T>)
    requires r < |slots|
    ensures |s| == n
    decreases n
  {
    if n == 0 then []
    else
      var next := Around(|slots|, r + 1);
      [slots[next]] + SlotsAfter(slots, next, n - 1)
  }

  lemma FirstOfSlots<T>(slots: seq<T>, r: nat, n: nat)
    requires r < |slots|
    ensures var next := Around(|slots|, r + 1);
            SlotsAfter(slots, r, n + 1) == [slots[next]] + SlotsAfter(slots, next, n)
    ensures SlotsAfter(slots, r, 0) == []
  {
  }

  // Writing the slot that follows them appends, as long as the slots do not wrap onto it.
  lemma {:induction false} WriteAppends<T>(slots: seq<T>, r: nat, n: nat, t: T)
    requires r < |slots| && n + 1 < |slots|
    ensures SlotsAfter(slots[Around(|slots|, r + 1 + n) := t], r, n + 1) == SlotsAfter(slots, r, n) + [t]
    decreases n
  {
    var size := |slots|;
    var next, last := Around(size, r + 1), Around(size, r + 1 + n);
    var written := slots[last := t];
    AroundOnce(size, r + 1);
    AroundOnce(size, r + 1 + n);
    AroundOnce(size, next + n);
    FirstOfSlots(written, r, n);
    FirstOfSlots(slots, r, if n == 0 then 0 else n - 1);
    FirstOfSlots(written, next, 0);
    hide Around, SlotsAfter;
    if n > 0 {
      WriteAppends(slots, next, n - 1, t);
      assert Around(size, next + 1 + (n - 1)) == last;
      Associate([slots[next]], SlotsAfter(slots, next, n - 1), [t]);
    }
  }

  lemma Associate<T>(a: seq<T>, b: seq<T>, c: seq<T>)
    ensures a + (b + c) == a + b + c
  {
  }

  class ArrayQueue<T(0)> {
    const items: array<T>
    const size: nat
    var readPtr: nat
    var writePtr: nat

    ghost predicate Valid()
      reads this
    {
      size >= 1 && items.Length == size && readPtr < size && writePtr < size
    }

    ghost function Held(): (n: nat)
      requires Valid()
      reads this
      ensures n < size
    {
      if writePtr >= readPtr then writePtr - readPtr else writePtr + size - readPtr
    }

    // The items held, oldest first: the slots after the read pointer up to the write pointer.
    ghost function Contents(): (s: seq<T>)
      requires Valid()
      reads this, items
      ensures |s| == Held()
    {
      SlotsAfter(items[..], readPtr, Held())
    }

    constructor (size: nat)
      requires size >= 1
      ensures Valid() && this.size == size && Contents() == [] && fresh(items)
    {
      this.size := size;
      items := new T[size];
      readPtr, writePtr := 0, 0;
    }

    function Next(idx: nat): nat
      requires size >= 1
    {
      (idx + 1) % size
    }

    method Push(t: T) returns (ok: bool)
      requires Valid()
      modifies this`writePtr, items
      ensures Valid()
      ensures ok == (|old(Contents())| < size - 1)
      ensures Contents() == if ok then old(Contents()) + [t] else old(Contents())
    {
      var expected := writePtr;
      var desired := Next(expected);
      AroundOnce(size, expected + 1);
      if desired == readPtr {
        return false;
      }
      WriteAppends(items[..], readPtr, Held(), t);
      AroundOnce(size, readPtr + 1 + Held());
      writePtr := desired;
      items[desired] := t;
      return true;
    }

    method Pop() returns (ok: bool, t: T)
      requires Valid()
      modifies this`readPtr
      ensures Valid()
      ensures ok == (old(Contents()) != [])
      ensures ok ==> old(Contents()) == [t] + Contents()
      ensures !ok ==> Contents() == old(Contents())
    {
      var expected := readPtr;
      var desired := Next(expected);
      AroundOnce(size, expected + 1);
      if expected == writePtr {
        ok := false;
        t := items[0];
        return;
      }
      readPtr := desired;
      t := items[desired];
      ok := true;
    }

    function Capacity(): nat {
      size
    }

    function Size(): nat
      requires Valid()
      reads this
    {
      if writePtr > readPtr then writePtr - readPtr else writePtr + size - readPtr
    }

    // size() is the number of items exactly when there is one; of an empty queue it reports the number of slots.
    lemma SizeExactly()
      requires Valid()
      ensures Size() == |Contents()| <==> Contents() != []
      ensures Contents() == [] ==> Size() == size
    {
    }

    // capacity() promises one item more than fits.
    lemma CapacityNeverReached()
      requires Valid()
      ensures |Contents()| <= Capacity() - 1
    {
    }
  }

  /* ---- Any sequence of calls is a bounded first-in first-out queue ---- */

  datatype Call<T> = CallPush(item: T) | CallPop
  datatype Outcome<T> = Accepted | Refused | Got(item: T) | Nothing
  datatype Fifo<T> = Fifo(contents: seq<T>, outcomes: seq<Outcome<T>>)

  datatype Answer<T> = Answer(contents: seq<T>, outcome: Outcome<T>)

  // What one call returns and leaves behind on a queue that holds at most bound items.
  function Serve<T>(bound: nat, contents: seq<T>, call: Call<T>): Answer<T> {
    match call
    case CallPush(t) => if |contents| < bound then Answer(contents + [t], Accepted) else Answer(contents, Refused)
    case CallPop => if contents == [] then Answer([], Nothing) else Answer(contents[1..], Got(contents[0]))
  }

  function Replay<T>(bound: nat, contents: seq<T>, calls: seq<Call<T>>): Fifo<T> {
    if calls == [] then Fifo(contents, [])
    else
      var f := Replay(bound, contents, calls[..|calls| - 1]);
      var answer := Serve(bound, f.contents, calls[|calls| - 1]);
      Fifo(answer.contents, f.outcomes + [answer.outcome])
  }

  method Perform<T(0)>(q: ArrayQueue<T>, calls: seq<Call<T>>) returns (outcomes: seq<Outcome<T>>)
    requires q.Valid()
    modifies q, q.items
    ensures q.Valid()
    ensures Fifo(q.Contents(), outcomes) == Replay(q.size - 1, old(q.Contents()), calls)
  {
    outcomes := [];
    for i := 0 to |calls|
      invariant q.Valid()
      invariant Fifo(q.Contents(), outcomes) == Replay(q.size - 1, old(q.Contents()), calls[..i])
    {
      assert calls[..i + 1][..i] == calls[..i];
      match calls[i] {
        case CallPush(t) =>
          var ok := q.Push(t);
          outcomes := outcomes + [if ok then Accepted else Refused];
        case CallPop =>
          var ok, t := q.Pop();
          outcomes := outcomes + [if ok then Got(t) else Nothing];
      }
    }
    assert calls[..|calls|] == calls;
  }

  function TakenIn<T>(call: Call<T>, outcome: Outcome<T>): seq<T> {
    if call.CallPush? && outcome.Accepted? then [call.item] else []
  }

  function HandedOut<T>(outcome: Outcome<T>): seq<T> {
    if outcome.Got? then [outcome.item] else []
  }

  function AcceptedItems<T>(calls: seq<Call<T>>, outcomes: seq<Outcome<T>>): seq<T>
    requires |calls| == |outcomes|
  {
    if calls == [] then []
    else
      var n := |calls| - 1;
      AcceptedItems(calls[..n], outcomes[..n]) + TakenIn(calls[n], outcomes[n])
  }

  function GotItems<T>(outcomes: seq<Outcome<T>>): seq<T> {
    if outcomes == [] then []
    else GotItems(outcomes[..|outcomes| - 1]) + HandedOut(outcomes[|outcomes| - 1])
  }

  lemma ServeConserves<T>(bound: nat, contents: seq<T>, call: Call<T>)
    ensures var a := Serve(bound, contents, call);
            HandedOut(a.outcome) + a.contents == contents + TakenIn(call, a.outcome)
    ensures |contents| <= bound ==> |Serve(bound, contents, call).contents| <= bound
  {
  }

  // What comes out, followed by what is left, is what was there followed by what was accepted.
  lemma {:induction false} ReplayConserves<T>(bound: nat, contents: seq<T>, calls: seq<Call<T>>)
    ensures |Replay(bound, contents, calls).outcomes| == |calls|
    ensures var f := Replay(bound, contents, calls);
            GotItems(f.outcomes) + f.contents == contents + AcceptedItems(calls, f.outcomes)
    ensures |contents| <= bound ==> |Replay(bound, contents, calls).contents| <= bound
  {
    if calls == [] {
      assert [] + contents == contents + [];
    } else {
      hide Serve, TakenIn, HandedOut;
      var n := |calls| - 1;
      ReplayConserves(bound, contents, calls[..n]);
      var before, after := Replay(bound, contents, calls[..n]), Replay(bound, contents, calls);
      assert after.outcomes[..n] == before.outcomes;
      ServeConserves(bound, before.contents, calls[n]);
      Chain(GotItems(before.outcomes), HandedOut(after.outcomes[n]), after.contents, before.contents,
        TakenIn(calls[n], after.outcomes[n]), contents, AcceptedItems(calls[..n], before.outcomes));
    }
  }

  lemma Chain<T>(
    got: seq<T>, out: seq<T>, after: seq<T>, before: seq<T>, taken: seq<T>, contents: seq<T>, accepted: seq<T>)
    requires out + after == before + taken && got + before == contents + accepted
    ensures (got + out) + after == contents + (accepted + taken)
  {
    assert (got + out) + after == got + (out + after);
    assert got + (before + taken) == (got + before) + taken;
    assert (contents + accepted) + taken == contents + (accepted + taken);
  }

  /* ---- What every single call answers ---- */

  lemma {:induction false} ReplayPrefix<T>(bound: nat, contents: seq<T>, calls: seq<Call<T>>, k: nat)
    requires k <= |calls|
    ensures |Replay(bound, contents, calls).outcomes| == |calls|
    ensures Replay(bound, contents, calls[..k]).outcomes == Replay(bound, contents, calls).outcomes[..k]
    decreases |calls|
  {
    ReplayConserves(bound, contents, calls);
    hide Serve;
    if k < |calls| {
      var n := |calls| - 1;
      assert calls[..n][..k] == calls[..k];
      ReplayPrefix(bound, contents, calls[..n], k);
    } else {
      assert calls[..k] == calls;
    }
  }

  lemma NextOutcome<T>(bound: nat, contents: seq<T>, calls: seq<Call<T>>, k: nat)
    requires k < |calls| == |Replay(bound, contents, calls).outcomes|
    ensures Replay(bound, contents, calls).outcomes[k]
         == Serve(bound, Replay(bound, contents, calls[..k]).contents, calls[k]).outcome
  {
    ReplayPrefix(bound, contents, calls, k);
    ReplayPrefix(bound, contents, calls, k + 1);
    var upTo := calls[..k + 1];
    assert upTo[..k] == calls[..k] && upTo[k] == calls[k];
    hide Serve;
    assert Replay(bound, contents, upTo).outcomes[k] == Replay(bound, contents, calls).outcomes[..k + 1][k];
  }

  lemma ServeAnswers<T>(bound: nat, got: seq<T>, held: seq<T>, items: seq<T>, call: Call<T>)
    requires got + held == items
    ensures |got| <= |items|
    ensures Serve(bound, held, call).outcome ==
            match call
            case CallPush(_) => if |items| - |got| < bound then Accepted else Refused
            case CallPop => if |items| - |got| > 0 then Got(items[|got|]) else Nothing
  {
  }

  // With m items in at first, a push is accepted exactly if m plus those accepted so far, less those handed out, is
  // below the bound; a pop answers exactly if it is above zero, and then with the next of all items, in order.
  lemma OutcomesExactly<T>(bound: nat, contents: seq<T>, calls: seq<Call<T>>, k: nat)
    requires k < |calls|
    ensures var outcomes := Replay(bound, contents, calls).outcomes;
            && |outcomes| == |calls|
            && var items := contents + AcceptedItems(calls[..k], outcomes[..k]);
            var out := |GotItems(outcomes[..k])|;
            && out <= |items|
            && outcomes[k] ==
               match calls[k]
               case CallPush(_) => if |items| - out < bound then Accepted else Refused
               case CallPop => if |items| - out > 0 then Got(items[out]) else Nothing
  {
    ReplayPrefix(bound, contents, calls, k);
    ReplayConserves(bound, contents, calls[..k]);
    NextOutcome(bound, contents, calls, k);
    hide Serve, AcceptedItems, GotItems, Replay;
    var held := Replay(bound, contents, calls[..k]).contents;
    var outcomes := Replay(bound, contents, calls).outcomes;
    ServeAnswers(bound, GotItems(outcomes[..k]), held, contents + AcceptedItems(calls[..k], outcomes[..k]), calls[k]);
  }
}
