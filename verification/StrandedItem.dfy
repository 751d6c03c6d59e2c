/** With two producers an item can be stranded: held with no token on its way.

    A run of the flow over a queue of any size from two slots up, values of one word.
    Any two threads allowed to push take part; the consumer may be one of them, the other
    threads rest, and no token is refused. */
module StrandedItem {
  import opened LockFreeQueue
  import opened QueueFlow
  import opened RefusedToken

  const A: Value := [7]
  const B: Value := [8]

  // Thread b at pb, thread i at pi, the others idle.
  function Pcs(n: nat, b: nat, pb: Pc, i: nat, pi: Pc): (pcs: seq<Pc>)
    requires b < n && i < n
    ensures |pcs| == n
  {
    seq(n, _ => Idle)[b := pb][i := pi]
  }

  function Posts(n: nat, i: nat, p: bool): (posting: seq<bool>)
    requires i < n
    ensures |posting| == n
  {
    seq(n, _ => false)[i := p]
  }

  // The two slots the run touches, the others as they were.
  function Slots(capacity: nat, first: Slot, second: Slot): (slots: seq<Slot>)
    requires capacity >= 2
    ensures |slots| == capacity
  {
    seq(capacity, j requires 0 <= j < capacity => Slot([0], j))[0 := first][1 := second]
  }

  function Owners(capacity: nat, first: int, second: int): (owner: seq<int>)
    requires capacity >= 2
    ensures |owner| == capacity
  {
    seq(capacity, _ => -1)[0 := first][1 := second]
  }

  datatype Cast = Cast(producers: seq<bool>, capacity: nat, room: nat, a: nat, b: nat) {
    predicate Valid() {
      && a < b < |producers| && producers[a] && producers[b]
      && capacity >= 2 && room >= 1
    }
  }

  function Strand(
    c: Cast, tail: nat, first: Slot, second: Slot, pb: Pc, i: nat, pi: Pc, pushed: seq<Value>,
    owners: seq<int>, posting: seq<bool>, tokens: nat, noData: nat): Flow
    requires c.Valid() && i < c.b
  {
    Flow(Queue(c.capacity, 1, 0, tail, Slots(c.capacity, first, second), Pcs(|c.producers|, c.b, pb, i, pi), pushed,
           map[], owners),
         c.producers, c.room, posting, tokens, [], 0, noData, 0)
  }

  // The first producer between its compare-and-swap and its first copied word.
  const PAUSED: Pc := PushCopying(A, 0, 0)

  // Thread b takes ticket 0 and pauses; thread a completes ticket 1 and posts; the consumer spends
  // that token on ticket 0, which is not there yet; thread b resumes.
  function StrandState(c: Cast, k: nat): Flow
    requires c.Valid()
  {
    var n, a: int, b: int := |c.producers|, c.a, c.b;
    var zero, one, two := Slot([0], 0), Slot([0], 1), Slot(B, 2);
    var none := Posts(n, 0, false);
    var o := (x: int, y: int) => Owners(c.capacity, x, y);
    match k
    case 0 => Strand(c, 0, zero, one, Idle, a, Idle, [], o(-1, -1), none, 0, 0)
    case 1 => Strand(c, 0, zero, one, PushLoaded(A, 0), a, Idle, [], o(-1, -1), none, 0, 0)
    case 2 => Strand(c, 0, zero, one, PushChecked(A, 0), a, Idle, [], o(-1, -1), none, 0, 0)
    case 3 => Strand(c, 1, zero, one, PAUSED, a, Idle, [A], o(b, -1), none, 0, 0)
    case 4 => Strand(c, 1, zero, one, PAUSED, a, PushLoaded(B, 1), [A], o(b, -1), none, 0, 0)
    case 5 => Strand(c, 1, zero, one, PAUSED, a, PushChecked(B, 1), [A], o(b, -1), none, 0, 0)
    case 6 => Strand(c, 2, zero, one, PAUSED, a, PushCopying(B, 1, 0), [A, B], o(b, a), none, 0, 0)
    case 7 => Strand(c, 2, zero, Slot(B, 1), PAUSED, a, PushCopying(B, 1, 1), [A, B], o(b, a), none, 0, 0)
    case 8 => Strand(c, 2, zero, two, PAUSED, a, Idle, [A, B], o(b, -1), Posts(n, a, true), 0, 0)
    case 9 => Strand(c, 2, zero, two, PAUSED, a, Idle, [A, B], o(b, -1), none, 1, 0)
    case 10 => Strand(c, 2, zero, two, PAUSED, 0, PopLoaded(0), [A, B], o(b, -1), none, 0, 0)
    case 11 => Strand(c, 2, zero, two, PAUSED, 0, Idle, [A, B], o(b, -1), none, 0, 1)
    case 12 => Strand(c, 2, Slot(A, 0), two, PushCopying(A, 0, 1), 0, Idle, [A, B], o(b, -1), none, 0, 1)
    case 13 => Strand(c, 2, Slot(A, 1), two, Idle, 0, Idle, [A, B], o(-1, -1), Posts(n, b, true), 0, 1)
    case _ => Strand(c, 2, Slot(A, 1), two, Idle, 0, Idle, [A, B], o(-1, -1), none, 1, 1)
  }

  function StrandThread(c: Cast, k: nat): nat {
    if k == 9 || k == 10 then 0 else if 3 <= k <= 8 then c.a else c.b
  }

  function StrandAction(k: nat): FlowAction {
    match k
    case 0 => On(A)
    case 3 => On(B)
    case 8 => Post
    case 9 => Take
    case 13 => Post
    case _ => Go
  }

  function StrandRun(c: Cast): seq<Flow>
    requires c.Valid()
  {
    seq(15, k requires 0 <= k < 15 => StrandState(c, k))
  }

  predicate StrandSteps(c: Cast, k: nat)
    requires c.Valid() && k < 14
  {
    FlowEnabled(StrandState(c, k), StrandThread(c, k), StrandAction(k))
    && FlowStep(StrandState(c, k), StrandThread(c, k), StrandAction(k)) == StrandState(c, k + 1)
  }

  lemma Threads(n: nat, b: nat, pb: Pc, i: nat, pi: Pc)
    requires i < b < n
    ensures Pcs(n, b, pb, i, pi)[b] == pb && Pcs(n, b, pb, i, pi)[i] == pi
    ensures forall v: Pc :: Pcs(n, b, pb, i, pi)[b := v] == Pcs(n, b, v, i, pi)
    ensures forall v: Pc :: Pcs(n, b, pb, i, pi)[i := v] == Pcs(n, b, pb, i, v)
    ensures Pcs(n, b, pb, i, Idle) == Pcs(n, b, pb, 0, Idle)
  {
  }

  lemma Tokens(n: nat, i: nat)
    requires i < n
    ensures Posts(n, i, true)[i] && !Posts(n, 0, false)[i]
    ensures Posts(n, 0, false)[i := true] == Posts(n, i, true)
    ensures Posts(n, i, true)[i := false] == Posts(n, 0, false)
  {
  }

  lemma FirstSlots(capacity: nat)
    requires capacity >= 2
    ensures SlotOf(capacity, 0) == 0 && SlotOf(capacity, 1) == 1
  {
  }

  lemma Held(capacity: nat, first: Slot, second: Slot)
    requires capacity >= 2 && |first.words| == 1 && |second.words| == 1
    ensures Slots(capacity, first, second)[0] == first && Slots(capacity, first, second)[1] == second
    ensures forall j :: 0 <= j < capacity ==> |Slots(capacity, first, second)[j].words| == 1
    ensures forall v: Slot :: Slots(capacity, first, second)[0 := v] == Slots(capacity, v, second)
    ensures forall v: Slot :: Slots(capacity, first, second)[1 := v] == Slots(capacity, first, v)
  {
  }

  lemma Owned(capacity: nat, first: int, second: int)
    requires capacity >= 2
    ensures forall v: int :: Owners(capacity, first, second)[0 := v] == Owners(capacity, v, second)
    ensures forall v: int :: Owners(capacity, first, second)[1 := v] == Owners(capacity, first, v)
  {
  }

  lemma OneWord()
    ensures forall x: int, v: int :: [x][0 := v] == [v]
  {
  }

  lemma FirstPushStarts(c: Cast)
    requires c.Valid()
    ensures StrandSteps(c, 0) && StrandSteps(c, 1) && StrandSteps(c, 2)
  {
    FirstSlots(c.capacity);
    Held(c.capacity, Slot([0], 0), Slot([0], 1));
    Owned(c.capacity, -1, -1);
    Tokens(|c.producers|, c.b);
    Threads(|c.producers|, c.b, Idle, c.a, Idle);
    Threads(|c.producers|, c.b, PushLoaded(A, 0), c.a, Idle);
    Threads(|c.producers|, c.b, PushChecked(A, 0), c.a, Idle);
    hide SlotOf, Pcs, Posts, Slots, Owners;
  }

  lemma SecondPushStarts(c: Cast)
    requires c.Valid()
    ensures StrandSteps(c, 3) && StrandSteps(c, 4)
  {
    FirstSlots(c.capacity);
    Held(c.capacity, Slot([0], 0), Slot([0], 1));
    Tokens(|c.producers|, c.a);
    Threads(|c.producers|, c.b, PAUSED, c.a, Idle);
    Threads(|c.producers|, c.b, PAUSED, c.a, PushLoaded(B, 1));
    hide SlotOf, Pcs, Posts, Slots, Owners;
  }

  lemma SecondPushCopies(c: Cast)
    requires c.Valid()
    ensures StrandSteps(c, 5) && StrandSteps(c, 6)
  {
    FirstSlots(c.capacity);
    Held(c.capacity, Slot([0], 0), Slot([0], 1));
    Owned(c.capacity, c.b, -1);
    OneWord();
    Tokens(|c.producers|, c.a);
    Threads(|c.producers|, c.b, PAUSED, c.a, PushChecked(B, 1));
    Threads(|c.producers|, c.b, PAUSED, c.a, PushCopying(B, 1, 0));
    hide SlotOf, Pcs, Posts, Slots, Owners;
  }

  lemma SecondPushEnds(c: Cast)
    requires c.Valid()
    ensures StrandSteps(c, 7) && StrandSteps(c, 8)
  {
    FirstSlots(c.capacity);
    Held(c.capacity, Slot([0], 0), Slot(B, 1));
    Held(c.capacity, Slot([0], 0), Slot(B, 2));
    Owned(c.capacity, c.b, c.a);
    Tokens(|c.producers|, c.a);
    Threads(|c.producers|, c.b, PAUSED, c.a, PushCopying(B, 1, 1));
    hide SlotOf, Pcs, Posts, Slots, Owners;
  }

  lemma TokenSpent(c: Cast)
    requires c.Valid()
    ensures StrandSteps(c, 9) && StrandSteps(c, 10)
  {
    FirstSlots(c.capacity);
    Held(c.capacity, Slot([0], 0), Slot(B, 2));
    Tokens(|c.producers|, 0);
    Threads(|c.producers|, c.b, PAUSED, c.a, Idle);
    Threads(|c.producers|, c.b, PAUSED, 0, Idle);
    Threads(|c.producers|, c.b, PAUSED, 0, PopLoaded(0));
    hide SlotOf, Pcs, Posts, Slots, Owners;
  }

  lemma FirstPushCopies(c: Cast)
    requires c.Valid()
    ensures StrandSteps(c, 11)
  {
    FirstSlots(c.capacity);
    Held(c.capacity, Slot([0], 0), Slot(B, 2));
    OneWord();
    Tokens(|c.producers|, c.b);
    Threads(|c.producers|, c.b, PAUSED, 0, Idle);
    hide SlotOf, Pcs, Posts, Slots, Owners;
  }

  lemma FirstPushEnds(c: Cast)
    requires c.Valid()
    ensures StrandSteps(c, 12) && StrandSteps(c, 13)
  {
    FirstSlots(c.capacity);
    Held(c.capacity, Slot(A, 0), Slot(B, 2));
    Held(c.capacity, Slot(A, 1), Slot(B, 2));
    Owned(c.capacity, c.b, -1);
    Tokens(|c.producers|, c.b);
    Threads(|c.producers|, c.b, PushCopying(A, 0, 1), 0, Idle);
    hide SlotOf, Pcs, Posts, Slots, Owners;
  }

  lemma EachSteps(c: Cast, k: nat)
    requires c.Valid() && k < 14
    ensures StrandSteps(c, k)
  {
    hide StrandSteps;
    FirstPushStarts(c);
    SecondPushStarts(c);
    SecondPushCopies(c);
    SecondPushEnds(c);
    TokenSpent(c);
    FirstPushCopies(c);
    FirstPushEnds(c);
  }

  lemma StrandIsRun(c: Cast)
    requires c.Valid()
    ensures IsFlowRun(StrandRun(c))
  {
    StrandInit(c);
    forall k | 0 <= k < 14
      ensures FlowNext(StrandState(c, k), StrandState(c, k + 1))
    {
      EachSteps(c, k);
      StrandNext(c, k);
    }
    hide StrandSteps, StrandState, FlowInit, FlowNext;
  }

  lemma StrandNext(c: Cast, k: nat)
    requires c.Valid() && k < 14 && StrandSteps(c, k)
    ensures FlowNext(StrandState(c, k), StrandState(c, k + 1))
  {
    hide FlowEnabled, FlowStep, StrandState;
  }

  lemma StrandInit(c: Cast)
    requires c.Valid()
    ensures FlowInit(StrandState(c, 0))
  {
    hide SlotOf;
  }

  // Nothing was lost and nobody is at work, yet two items are held with one token between them:
  // draining the thread emits the first and leaves the second.
  lemma StrandedItem(c: Cast)
    requires c.Valid()
    ensures IsFlowRun(StrandRun(c)) && |StrandRun(c)| == 15 && Has(StrandRun(c)[0], c.producers, c.capacity, c.room)
    ensures var f := StrandRun(c)[14];
            && FlowInv(f) && Quiet(f) && f.lost == f.requested == 0 && f.noData == 1
            && f.queue.pushed == [A, B] && f.tokens == 1 && f.queue.head == 0 && f.queue.tail == 2
            && Drain(f).emitted == [A] && Drain(f).tokens == 0 && Drain(f).queue.pushed == [A, B]
  {
    StrandIsRun(c);
    FlowRunInv(StrandRun(c), 14);
    hide IsFlowRun, FlowInv, Drain;
    DrainEmits(StrandRun(c)[14]);
  }

  /* ---- Exactly who is safe ---- */

  // Set up like this, no run without request() comes to rest with an item that draining would leave behind.
  ghost predicate NeverStrands(producers: seq<bool>, capacity: nat, room: nat) {
    forall run: seq<Flow>, k: nat ::
      IsFlowRun(run) && k < |run| && Has(run[0], producers, capacity, room) && RestsUnrequested(run[k])
      ==> DrainsAll(run[k])
  }

  predicate RestsUnrequested(f: Flow) {
    Quiet(f) && f.requested == 0
  }

  lemma {:induction false} PairCounted(bs: seq<bool>) returns (i: nat, j: nat)
    requires Count(bs) >= 2
    ensures i < j < |bs| && bs[i] && bs[j]
  {
    var n := |bs| - 1;
    if bs[n] {
      i := OneCounted(bs[..n]);
      j := n;
    } else {
      i, j := PairCounted(bs[..n]);
    }
  }

  lemma StrandedByTwo(producers: seq<bool>, capacity: nat, room: nat)
    requires Count(producers) >= 2 && capacity >= 2 && room >= 1
    ensures !NeverStrands(producers, capacity, room)
  {
    var a, b := PairCounted(producers);
    var c := Cast(producers, capacity, room, a, b);
    StrandedItem(c);
    hide IsFlowRun, StrandRun, Drain, Quiet;
    assert !DrainsAll(StrandRun(c)[14]);
  }

  lemma StrandedByRefusal(producers: seq<bool>, capacity: nat, room: nat)
    requires Count(producers) >= 1 && capacity >= 2 && room < capacity
    ensures !NeverStrands(producers, capacity, room)
  {
    var run, k := ScantRoomLoses(producers, capacity, room);
    DrainsAllIff(run, k);
    hide IsFlowRun, DrainsAll, Quiet;
    assert RestsUnrequested(run[k]);
  }

  // No run strands an item exactly when nobody pushes, or one thread only, which may be the consumer itself,
  // and the pipe has a place for every slot of the queue.
  lemma NeverStrandsIff(producers: seq<bool>, capacity: nat, room: nat)
    requires capacity >= 2
    ensures NeverStrands(producers, capacity, room) <==>
            Count(producers) == 0 || (Count(producers) == 1 && room >= capacity)
  {
    if Count(producers) <= 1 && AmpleRoom(producers, capacity, room) {
      forall run: seq<Flow>, k: nat |
        IsFlowRun(run) && k < |run| && Has(run[0], producers, capacity, room) && RestsUnrequested(run[k])
        ensures DrainsAll(run[k])
      {
        SoleProducerDrains(run, k);
      }
    } else if room < capacity {
      StrandedByRefusal(producers, capacity, room);
    } else {
      StrandedByTwo(producers, capacity, room);
    }
  }
}
