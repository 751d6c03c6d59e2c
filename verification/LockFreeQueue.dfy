/** The bounded lock-free queue `ArrayQueue` as a transition system.

    Any number of threads push and pop.  Every load, version check, compare-and-swap,
    copied word and version store is a step of its own, and the steps of the threads
    interleave arbitrarily.  A value is a sequence of words: copying it takes one step
    per word, so a torn read would be visible.

    `pushed`, `returned` and `owner` are history: the program does not hold them. */
module LockFreeQueue {

  type Word = int
  type Value = seq<Word>

  datatype Slot = Slot(words: Value, version: nat)

  // Where a thread is: the names say which step it took last.
  datatype Pc =
    | Idle
    | PushLoaded(value: Value, tail: nat)
    | PushChecked(value: Value, tail: nat)
    | PushCopying(value: Value, tail: nat, done: nat)
    | PopLoaded(head: nat)
    | PopChecked(head: nat)
    | PopCopying(head: nat, got: Value)

  datatype Queue = Queue(
    capacity: nat,
    width: nat,              // words per value
    head: nat,
    tail: nat,
    slots: seq<Slot>,
    pcs: seq<Pc>,
    pushed: seq<Value>,      // by ticket, recorded when the tail is taken
    returned: map<nat, Value>, // by ticket, recorded when a pop returns
    owner: seq<int>)         // by slot: the thread between its compare-and-swap and its version store, or -1

  predicate Shape(q: Queue) {
    && 1 <= q.capacity == |q.slots| == |q.owner|
    && (forall j :: 0 <= j < |q.slots| ==> |q.slots[j].words| == q.width)
  }

  function SlotOf(capacity: nat, ticket: nat): (j: nat)
    requires capacity >= 1
    ensures j < capacity
  {
    ticket % capacity
  }

  predicate Init(q: Queue) {
    && Shape(q) && q.head == q.tail == 0
    && (forall j :: 0 <= j < |q.slots| ==> q.slots[j].version == j)
    && (forall i :: 0 <= i < |q.pcs| ==> q.pcs[i] == Idle)
    && q.pushed == [] && q.returned == map[]
    && (forall j :: 0 <= j < |q.owner| ==> q.owner[j] == -1)
  }

  /* ---- Steps ---- */

  function Goto(q: Queue, i: nat, pc: Pc): Queue
    requires i < |q.pcs|
  {
    q.(pcs := q.pcs[i := pc])
  }

  function StartPush(q: Queue, i: nat, v: Value): Queue
    requires i < |q.pcs|
  {
    Goto(q, i, PushLoaded(v, q.tail))
  }

  function StartPop(q: Queue, i: nat): Queue
    requires i < |q.pcs|
  {
    Goto(q, i, PopLoaded(q.head))
  }

  function CheckPush(q: Queue, i: nat, v: Value, t: nat): Queue
    requires Shape(q) && i < |q.pcs|
  {
    if q.slots[SlotOf(q.capacity, t)].version != t then Goto(q, i, Idle) else Goto(q, i, PushChecked(v, t))
  }

  function SwapTail(q: Queue, i: nat, v: Value, t: nat): Queue
    requires Shape(q) && i < |q.pcs|
  {
    if q.tail != t then Goto(q, i, Idle)
    else Goto(q, i, PushCopying(v, t, 0)).(
      tail := t + 1, pushed := q.pushed + [v], owner := q.owner[SlotOf(q.capacity, t) := i])
  }

  function CopyIn(q: Queue, i: nat, v: Value, t: nat, k: nat): Queue
    requires Shape(q) && i < |q.pcs| && k < |v| == q.width
  {
    var j := SlotOf(q.capacity, t);
    Goto(q, i, PushCopying(v, t, k + 1)).(slots := q.slots[j := q.slots[j].(words := q.slots[j].words[k := v[k]])])
  }

  function PublishPush(q: Queue, i: nat, t: nat): Queue
    requires Shape(q) && i < |q.pcs|
  {
    var j := SlotOf(q.capacity, t);
    Goto(q, i, Idle).(slots := q.slots[j := q.slots[j].(version := t + 1)], owner := q.owner[j := -1])
  }

  function CheckPop(q: Queue, i: nat, h: nat): Queue
    requires Shape(q) && i < |q.pcs|
  {
    if q.slots[SlotOf(q.capacity, h)].version != h + 1 then Goto(q, i, Idle) else Goto(q, i, PopChecked(h))
  }

  function SwapHead(q: Queue, i: nat, h: nat): Queue
    requires Shape(q) && i < |q.pcs|
  {
    if q.head != h then Goto(q, i, Idle)
    else Goto(q, i, PopCopying(h, [])).(head := h + 1, owner := q.owner[SlotOf(q.capacity, h) := i])
  }

  function CopyOut(q: Queue, i: nat, h: nat, got: Value): Queue
    requires Shape(q) && i < |q.pcs| && |got| < q.width
  {
    Goto(q, i, PopCopying(h, got + [q.slots[SlotOf(q.capacity, h)].words[|got|]]))
  }

  function PublishPop(q: Queue, i: nat, h: nat, got: Value): Queue
    requires Shape(q) && i < |q.pcs|
  {
    var j := SlotOf(q.capacity, h);
    Goto(q, i, Idle).(
      slots := q.slots[j := q.slots[j].(version := h + q.capacity)], owner := q.owner[j := -1],
      returned := q.returned[h := got])
  }

  // A thread inside a call has one next step.
  predicate CanAdvance(q: Queue, i: nat) {
    && Shape(q) && i < |q.pcs| && q.pcs[i] != Idle
    && (q.pcs[i].PushCopying? ==> |q.pcs[i].value| == q.width)
  }

  function Advance(q: Queue, i: nat): Queue
    requires CanAdvance(q, i)
  {
    match q.pcs[i]
    case PushLoaded(v, t) => CheckPush(q, i, v, t)
    case PushChecked(v, t) => SwapTail(q, i, v, t)
    case PushCopying(v, t, k) => if k < q.width then CopyIn(q, i, v, t, k) else PublishPush(q, i, t)
    case PopLoaded(h) => CheckPop(q, i, h)
    case PopChecked(h) => SwapHead(q, i, h)
    case PopCopying(h, got) => if |got| < q.width then CopyOut(q, i, h, got) else PublishPop(q, i, h, got)
    case Idle => q
  }

  datatype Action = CallPush(value: Value) | CallPop | Continue

  predicate Enabled(q: Queue, i: nat, a: Action) {
    && Shape(q) && i < |q.pcs|
    && match a
       case CallPush(v) => q.pcs[i] == Idle && |v| == q.width
       case CallPop => q.pcs[i] == Idle
       case Continue => CanAdvance(q, i)
  }

  function Step(q: Queue, i: nat, a: Action): Queue
    requires Enabled(q, i, a)
  {
    match a
    case CallPush(v) => StartPush(q, i, v)
    case CallPop => StartPop(q, i)
    case Continue => Advance(q, i)
  }

  ghost predicate Next(q: Queue, q': Queue) {
    exists i: nat, a: Action :: Enabled(q, i, a) && q' == Step(q, i, a)
  }

  ghost predicate IsRun(run: seq<Queue>) {
    && run != [] && Init(run[0])
    && (forall k :: 0 <= k < |run| - 1 ==> Next(run[k], run[k + 1]))
  }

  /* ---- The invariant ---- */

  // Thread i holds ticket t of the slot between its compare-and-swap and its version store.
  predicate Writing(q: Queue, i: int, t: nat) {
    0 <= i < |q.pcs| && q.pcs[i].PushCopying? && q.pcs[i].tail == t
  }

  predicate Reading(q: Queue, i: int, h: nat) {
    0 <= i < |q.pcs| && q.pcs[i].PopCopying? && q.pcs[i].head == h
  }

  predicate PcOk(q: Queue, i: nat)
    requires Shape(q) && i < |q.pcs| && |q.pushed| == q.tail
  {
    match q.pcs[i]
    case Idle => true
    case PushLoaded(v, t) => t <= q.tail && |v| == q.width
    case PushChecked(v, t) =>
      t <= q.tail && |v| == q.width && (t == q.tail ==> q.slots[SlotOf(q.capacity, t)].version == t)
    case PushCopying(v, t, k) =>
      && q.head <= t < q.tail && k <= q.width == |v| && q.pushed[t] == v
      && q.slots[SlotOf(q.capacity, t)].version == t && q.slots[SlotOf(q.capacity, t)].words[..k] == v[..k]
      && q.owner[SlotOf(q.capacity, t)] == i
    case PopLoaded(h) => h <= q.head
    case PopChecked(h) => h <= q.head && (h == q.head ==> q.slots[SlotOf(q.capacity, h)].version == h + 1)
    case PopCopying(h, got) =>
      && h < q.head && h < q.tail <= h + q.capacity && |got| <= q.width
      && q.slots[SlotOf(q.capacity, h)].version == h + 1 && q.slots[SlotOf(q.capacity, h)].words == q.pushed[h]
      && got == q.pushed[h][..|got|]
      && q.owner[SlotOf(q.capacity, h)] == i && h !in q.returned
  }

  // A pushed ticket not yet popped: its slot is being written, or filled.
  predicate LiveOk(q: Queue, t: nat)
    requires Shape(q) && |q.pushed| == q.tail && t < q.tail
  {
    var j := SlotOf(q.capacity, t);
    || (q.slots[j].version == t && Writing(q, q.owner[j], t))
    || (q.slots[j].version == t + 1 && q.slots[j].words == q.pushed[t] && q.owner[j] == -1)
  }

  // A ticket not yet pushed: its slot is free, or still being read by the pop one round earlier.
  predicate FreeOk(q: Queue, t: nat)
    requires Shape(q)
  {
    var j := SlotOf(q.capacity, t);
    || (q.slots[j].version == t && q.owner[j] == -1)
    || (t >= q.capacity && q.slots[j].version == t - q.capacity + 1 && Reading(q, q.owner[j], t - q.capacity))
  }

  // A popped ticket: its pop is still copying, or has returned the pushed value.
  predicate PoppedOk(q: Queue, h: nat)
    requires Shape(q) && |q.pushed| == q.tail && h < q.tail
  {
    if h in q.returned then q.returned[h] == q.pushed[h] else Reading(q, q.owner[SlotOf(q.capacity, h)], h)
  }

  ghost predicate Inv(q: Queue) {
    && Shape(q) && q.capacity >= 2
    && q.head <= q.tail <= q.head + q.capacity
    && |q.pushed| == q.tail
    && (forall t :: 0 <= t < q.tail ==> |q.pushed[t]| == q.width)
    && (forall i :: 0 <= i < |q.pcs| ==> PcOk(q, i))
    && (forall t :: q.head <= t < q.tail ==> LiveOk(q, t))
    && (forall t :: q.tail <= t < q.head + q.capacity ==> FreeOk(q, t))
    && (forall h :: 0 <= h < q.head ==> PoppedOk(q, h))
    && (forall h :: h in q.returned ==> h < q.head)
  }

  /* ---- Slots of tickets ---- */

  // Tickets less than a round apart have different slots; a round apart, the same.
  lemma SlotsDiffer(c: nat, a: nat, b: nat)
    requires c >= 1 && a < b < a + c
    ensures SlotOf(c, a) != SlotOf(c, b)
  {
    var d := b / c - a / c;
    assert b % c - a % c == (b - a) - c * d;
    if d <= 0 {
      assert c * d <= 0;
    } else {
      assert c * d >= c;
    }
  }

  lemma SlotsRecur(c: nat, a: nat)
    requires c >= 1
    ensures SlotOf(c, a + c) == SlotOf(c, a)
  {
    var d := 1 + a / c - (a + c) / c;
    assert (a + c) % c - a % c == c * d by {
      assert a + c == c * ((a + c) / c) + (a + c) % c;
      assert a == c * (a / c) + a % c;
    }
    assert d >= 1 ==> c * d >= c;
    assert d <= -1 ==> c * d <= -1 * c;
  }

  // Within the window of one round each ticket has its own slot.
  lemma WindowSlots(q: Queue)
    requires Shape(q)
    ensures forall a: nat, b: nat :: q.head <= a < b < q.head + q.capacity ==>
              SlotOf(q.capacity, a) != SlotOf(q.capacity, b)
    ensures forall a: nat :: SlotOf(q.capacity, a + q.capacity) == SlotOf(q.capacity, a)
  {
    forall a: nat, b: nat | q.head <= a < b < q.head + q.capacity
      ensures SlotOf(q.capacity, a) != SlotOf(q.capacity, b)
    {
      SlotsDiffer(q.capacity, a, b);
    }
    forall a: nat
      ensures SlotOf(q.capacity, a + q.capacity) == SlotOf(q.capacity, a)
    {
      SlotsRecur(q.capacity, a);
    }
  }

  /* ---- Every step keeps the invariant ---- */

  predicate SameClaim(a: Pc, b: Pc) {
    && (a.PushCopying? <==> b.PushCopying?) && (a.PushCopying? ==> a.tail == b.tail)
    && (a.PopCopying? <==> b.PopCopying?) && (a.PopCopying? ==> a.head == b.head)
  }

  lemma GotoKeeps(q: Queue, i: nat, pc: Pc)
    requires Inv(q) && i < |q.pcs| && SameClaim(q.pcs[i], pc)
    requires PcOk(Goto(q, i, pc), i)
    ensures Inv(Goto(q, i, pc))
  {
    hide SlotOf;
    var q' := Goto(q, i, pc);
    assert forall o, t: nat :: Writing(q, o, t) == Writing(q', o, t);
    assert forall o, t: nat :: Reading(q, o, t) == Reading(q', o, t);
    forall k | 0 <= k < |q'.pcs|
      ensures PcOk(q', k)
    {
      assert PcOk(q, k);
    }
    forall t' | q.head <= t' < q.tail
      ensures LiveOk(q', t')
    {
      assert LiveOk(q, t');
    }
    forall t' | q.tail <= t' < q.head + q.capacity
      ensures FreeOk(q', t')
    {
      assert FreeOk(q, t');
    }
    forall h' | 0 <= h' < q.head
      ensures PoppedOk(q', h')
    {
      assert PoppedOk(q, h');
    }
  }

  lemma CopyInKeeps(q: Queue, i: nat)
    requires Inv(q) && i < |q.pcs| && q.pcs[i].PushCopying? && q.pcs[i].done < q.width
    ensures PcOk(q, i) && Inv(CopyIn(q, i, q.pcs[i].value, q.pcs[i].tail, q.pcs[i].done))
  {
    hide SlotOf;
    assert PcOk(q, i);
    var PushCopying(v, t, k) := q.pcs[i];
    var q' := CopyIn(q, i, v, t, k);
    var j := SlotOf(q.capacity, t);
    assert q'.slots[j].words[..k + 1] == v[..k + 1];
    assert forall o, t: nat :: Writing(q, o, t) == Writing(q', o, t);
    assert forall o, t: nat :: Reading(q, o, t) == Reading(q', o, t);
    forall n | 0 <= n < |q'.pcs|
      ensures PcOk(q', n)
    {
      assert PcOk(q, n);
    }
    forall t' | q.head <= t' < q.tail
      ensures LiveOk(q', t')
    {
      assert LiveOk(q, t');
    }
    forall t' | q.tail <= t' < q.head + q.capacity
      ensures FreeOk(q', t')
    {
      assert FreeOk(q, t');
    }
    forall h' | 0 <= h' < q.head
      ensures PoppedOk(q', h')
    {
      assert PoppedOk(q, h');
    }
  }

  lemma PublishPushPcs(q: Queue, i: nat, n: nat)
    requires Inv(q) && i < |q.pcs| && q.pcs[i].PushCopying? && q.pcs[i].done == q.width
    requires n < |q.pcs|
    ensures PcOk(PublishPush(q, i, q.pcs[i].tail), n)
  {
    WindowSlots(q);
    hide SlotOf;
    assert PcOk(q, i) && PcOk(q, n);
  }

  lemma PublishPushSlots(q: Queue, i: nat, t: nat)
    requires Inv(q) && i < |q.pcs| && q.pcs[i].PushCopying? && q.pcs[i].done == q.width
    requires q.head <= t < q.head + q.capacity
    ensures var q' := PublishPush(q, i, q.pcs[i].tail);
            if t < q.tail then LiveOk(q', t) else FreeOk(q', t)
  {
    WindowSlots(q);
    hide SlotOf;
    assert PcOk(q, i);
    var PushCopying(v, t0, k) := q.pcs[i];
    var words := q.slots[SlotOf(q.capacity, t0)].words;
    assert words == words[..k] && v == v[..k];
    assert if t < q.tail then LiveOk(q, t) else FreeOk(q, t);
  }

  lemma PublishPushKeeps(q: Queue, i: nat)
    requires Inv(q) && i < |q.pcs| && q.pcs[i].PushCopying? && q.pcs[i].done == q.width
    ensures Inv(PublishPush(q, i, q.pcs[i].tail))
  {
    hide SlotOf, LiveOk, FreeOk;
    assert PcOk(q, i);
    var q' := PublishPush(q, i, q.pcs[i].tail);
    forall n | 0 <= n < |q'.pcs|
      ensures PcOk(q', n)
    {
      PublishPushPcs(q, i, n);
    }
    forall t' | q.head <= t' < q.tail
      ensures LiveOk(q', t')
    {
      PublishPushSlots(q, i, t');
    }
    forall t' | q.tail <= t' < q.head + q.capacity
      ensures FreeOk(q', t')
    {
      PublishPushSlots(q, i, t');
    }
    forall h | 0 <= h < q.head
      ensures PoppedOk(q', h)
    {
      assert PoppedOk(q, h);
    }
  }

  lemma PublishPopPcs(q: Queue, i: nat, n: nat)
    requires Inv(q) && i < |q.pcs| && q.pcs[i].PopCopying? && |q.pcs[i].got| == q.width
    requires n < |q.pcs|
    ensures PcOk(PublishPop(q, i, q.pcs[i].head, q.pcs[i].got), n)
  {
    WindowSlots(q);
    hide SlotOf;
    assert PcOk(q, i) && PcOk(q, n);
    var h := q.pcs[i].head;
    assert SlotOf(q.capacity, h + q.capacity) == SlotOf(q.capacity, h);
    assert q.tail < h + q.capacity ==> SlotOf(q.capacity, q.tail) != SlotOf(q.capacity, h);
  }

  lemma PublishPopSlots(q: Queue, i: nat, t: nat)
    requires Inv(q) && i < |q.pcs| && q.pcs[i].PopCopying? && |q.pcs[i].got| == q.width
    requires q.head <= t < q.head + q.capacity
    ensures var q' := PublishPop(q, i, q.pcs[i].head, q.pcs[i].got);
            if t < q.tail then LiveOk(q', t) else FreeOk(q', t)
  {
    WindowSlots(q);
    hide SlotOf;
    assert PcOk(q, i);
    assert if t < q.tail then LiveOk(q, t) else FreeOk(q, t);
  }

  lemma PublishPopKeeps(q: Queue, i: nat)
    requires Inv(q) && i < |q.pcs| && q.pcs[i].PopCopying? && |q.pcs[i].got| == q.width
    ensures Inv(PublishPop(q, i, q.pcs[i].head, q.pcs[i].got))
  {
    hide SlotOf, LiveOk, FreeOk;
    assert PcOk(q, i);
    var PopCopying(h, got) := q.pcs[i];
    var q' := PublishPop(q, i, h, got);
    assert got == q.pushed[h];
    forall n | 0 <= n < |q'.pcs|
      ensures PcOk(q', n)
    {
      PublishPopPcs(q, i, n);
    }
    forall t' | q.head <= t' < q.tail
      ensures LiveOk(q', t')
    {
      PublishPopSlots(q, i, t');
    }
    forall t' | q.tail <= t' < q.head + q.capacity
      ensures FreeOk(q', t')
    {
      PublishPopSlots(q, i, t');
    }
    forall h' | 0 <= h' < q.head
      ensures PoppedOk(q', h')
    {
      assert PoppedOk(q, h');
    }
  }

  // A push that still finds its ticket current has a free slot within the round.
  lemma TailIsFree(q: Queue)
    requires Inv(q) && q.slots[SlotOf(q.capacity, q.tail)].version == q.tail
    ensures q.tail < q.head + q.capacity && q.owner[SlotOf(q.capacity, q.tail)] == -1
  {
    WindowSlots(q);
    hide SlotOf;
    assert q.head < q.tail ==> LiveOk(q, q.head);
    assert q.tail < q.head + q.capacity ==> FreeOk(q, q.tail);
    assert SlotOf(q.capacity, q.head + q.capacity) == SlotOf(q.capacity, q.head);
  }

  // A pop that still finds its ticket current has a filled slot.
  lemma HeadIsFilled(q: Queue)
    requires Inv(q) && q.slots[SlotOf(q.capacity, q.head)].version == q.head + 1
    ensures q.head < q.tail && q.owner[SlotOf(q.capacity, q.head)] == -1
    ensures q.slots[SlotOf(q.capacity, q.head)].words == q.pushed[q.head]
  {
    hide SlotOf;
    assert q.head == q.tail ==> FreeOk(q, q.head);
    assert q.head < q.tail ==> LiveOk(q, q.head);
  }

  lemma SwapTailPcs(q: Queue, i: nat, n: nat)
    requires Inv(q) && i < |q.pcs| && q.pcs[i].PushChecked? && q.pcs[i].tail == q.tail
    requires n < |q.pcs|
    ensures PcOk(SwapTail(q, i, q.pcs[i].value, q.tail), n)
  {
    assert PcOk(q, i) && PcOk(q, n);
    TailIsFree(q);
    hide SlotOf;
    if q.pcs[n].PopCopying? {
      SlotsRecur(q.capacity, q.pcs[n].head);
      assert q.tail != q.pcs[n].head + q.capacity;
    }
  }

  lemma SwapTailKeeps(q: Queue, i: nat)
    requires Inv(q) && i < |q.pcs| && q.pcs[i].PushChecked? && q.pcs[i].tail == q.tail
    ensures Inv(SwapTail(q, i, q.pcs[i].value, q.tail))
  {
    assert PcOk(q, i);
    TailIsFree(q);
    WindowSlots(q);
    hide SlotOf;
    var v, t := q.pcs[i].value, q.tail;
    var q' := SwapTail(q, i, v, t);
    forall n | 0 <= n < |q'.pcs|
      ensures PcOk(q', n)
    {
      SwapTailPcs(q, i, n);
    }
    hide PcOk;
    forall t' | q.head <= t' < q.tail + 1
      ensures LiveOk(q', t')
    {
      assert t' < q.tail ==> LiveOk(q, t');
    }
    forall t' | q.tail < t' < q.head + q.capacity
      ensures FreeOk(q', t')
    {
      assert FreeOk(q, t');
    }
    forall h | 0 <= h < q.head
      ensures PoppedOk(q', h)
    {
      assert PoppedOk(q, h);
    }
  }

  lemma SwapHeadPcs(q: Queue, i: nat, n: nat)
    requires Inv(q) && i < |q.pcs| && q.pcs[i].PopChecked? && q.pcs[i].head == q.head
    requires n < |q.pcs|
    ensures PcOk(SwapHead(q, i, q.head), n)
  {
    assert PcOk(q, i) && PcOk(q, n);
    HeadIsFilled(q);
    hide SlotOf;
  }

  lemma SwapHeadKeeps(q: Queue, i: nat)
    requires Inv(q) && i < |q.pcs| && q.pcs[i].PopChecked? && q.pcs[i].head == q.head
    ensures Inv(SwapHead(q, i, q.head))
  {
    assert PcOk(q, i);
    HeadIsFilled(q);
    WindowSlots(q);
    hide SlotOf;
    var h := q.head;
    var q' := SwapHead(q, i, h);
    forall n | 0 <= n < |q'.pcs|
      ensures PcOk(q', n)
    {
      SwapHeadPcs(q, i, n);
    }
    hide PcOk;
    forall t' | h < t' < q.tail
      ensures LiveOk(q', t')
    {
      assert LiveOk(q, t');
    }
    forall t' | q.tail <= t' < h + 1 + q.capacity
      ensures FreeOk(q', t')
    {
      assert t' < h + q.capacity ==> FreeOk(q, t');
      assert t' == h + q.capacity ==> SlotOf(q.capacity, t') == SlotOf(q.capacity, h);
    }
    forall h' | 0 <= h' < h + 1
      ensures PoppedOk(q', h')
    {
      assert h' < h ==> PoppedOk(q, h');
    }
  }

  lemma StepKeepsInv(q: Queue, i: nat, a: Action)
    requires Inv(q) && Enabled(q, i, a)
    ensures Inv(Step(q, i, a))
  {
    hide SlotOf, Inv;
    assert PcOk(q, i) by {
      InvPc(q, i);
    }
    match a
    case CallPush(v) => GotoKeeps(q, i, PushLoaded(v, q.tail));
    case CallPop => GotoKeeps(q, i, PopLoaded(q.head));
    case Continue =>
      match q.pcs[i]
      case PushLoaded(v, t) =>
        GotoKeeps(q, i, if q.slots[SlotOf(q.capacity, t)].version != t then Idle else PushChecked(v, t));
      case PushChecked(v, t) =>
        if q.tail == t {
          SwapTailKeeps(q, i);
        } else {
          GotoKeeps(q, i, Idle);
        }
      case PushCopying(v, t, k) =>
        if k < q.width {
          CopyInKeeps(q, i);
        } else {
          PublishPushKeeps(q, i);
        }
      case PopLoaded(h) =>
        GotoKeeps(q, i, if q.slots[SlotOf(q.capacity, h)].version != h + 1 then Idle else PopChecked(h));
      case PopChecked(h) =>
        if q.head == h {
          SwapHeadKeeps(q, i);
        } else {
          GotoKeeps(q, i, Idle);
        }
      case PopCopying(h, got) =>
        if |got| < q.width {
          InvPc(q, i);
          assert got + [q.pushed[h][|got|]] == q.pushed[h][..|got| + 1];
          GotoKeeps(q, i, PopCopying(h, got + [q.slots[SlotOf(q.capacity, h)].words[|got|]]));
        } else {
          PublishPopKeeps(q, i);
        }
      case Idle =>
  }

  lemma InvPc(q: Queue, i: nat)
    requires Inv(q) && i < |q.pcs|
    ensures |q.pushed| == q.tail && PcOk(q, i)
    ensures forall t :: 0 <= t < q.tail ==> |q.pushed[t]| == q.width
  {
  }
}
