/** Room in the pipe: with fewer places than the queue has slots, a token is refused sooner or later.

    The run that shows it is built step by step: a producer pushes, and posts, while the consumer rests. */
module RefusedToken {
  import opened LockFreeQueue
  import opened LockFreeTheorems
  import opened QueueFlow

  ghost predicate Reachable(f: Flow) {
    exists run, k: nat :: IsFlowRun(run) && k < |run| && run[k] == f
  }

  lemma InitReachable(f: Flow)
    requires FlowInit(f)
    ensures Reachable(f)
  {
    hide FlowInit;
    assert IsFlowRun([f]) && [f][0] == f;
  }

  lemma StepReachable(f: Flow, i: nat, a: FlowAction)
    requires Reachable(f) && FlowEnabled(f, i, a)
    ensures Reachable(FlowStep(f, i, a))
  {
    hide FlowInit, FlowStep, FlowEnabled;
    var run, k: nat :| IsFlowRun(run) && k < |run| && run[k] == f;
    var longer := run[..k + 1] + [FlowStep(f, i, a)];
    assert FlowNext(longer[k], longer[k + 1]);
    forall j | 0 <= j < |longer| - 1
      ensures FlowNext(longer[j], longer[j + 1])
    {
      assert j < k ==> longer[j] == run[j] && longer[j + 1] == run[j + 1] && FlowNext(run[j], run[j + 1]);
    }
    hide FlowNext;
    assert IsFlowRun(longer) && longer[k + 1] == FlowStep(f, i, a);
  }

  lemma {:induction false} FinishReachable(f: Flow, i: nat)
    requires FlowInv(f) && i < |f.queue.pcs| && Reachable(f)
    ensures Reachable(FinishCall(f, i))
    decreases StepsLeft(f.queue.width, f.queue.pcs[i])
  {
    if f.queue.pcs[i] != Idle {
      FinishCallUnfolds(f, i);
      StepReachable(f, i, Go);
      hide FlowInv, FlowStep, FlowEnabled, Reachable;
      FinishReachable(FlowStep(f, i, Go), i);
    }
  }

  /* ---- One undisturbed push ---- */

  // f' is f but for thread i and the tickets.
  predicate OnlyThreadMoved(f: Flow, f': Flow, i: nat, pc: Pc)
    requires i < |f.queue.pcs|
  {
    && SameSetup(f, f') && f'.queue.pcs == f.queue.pcs[i := pc] && f'.queue.head == f.queue.head
    && f'.tokens == f.tokens && f'.lost == f.lost && f'.requested == f.requested
  }

  lemma {:induction false} FinishPush(f: Flow, i: nat)
    requires FlowInv(f) && i < |f.queue.pcs| && f.queue.pcs[i].PushCopying?
    ensures i < |f.posting|
    ensures var f' := FinishCall(f, i);
            OnlyThreadMoved(f, f', i, Idle) && f'.queue.tail == f.queue.tail && f'.posting == f.posting[i := true]
    decreases StepsLeft(f.queue.width, f.queue.pcs[i])
  {
    assert Inv(f.queue);
    FinishCallUnfolds(f, i);
    StepKeepsSetup(f, i, Go);
    hide FlowInv, Inv, Advance, CanAdvance, SlotOf, Role;
    AdvanceMoves(f.queue, i);
    if !PushEnds(f.queue, i) {
      FinishPush(FlowStep(f, i, Go), i);
    }
  }

  lemma PushFindsRoom(q: Queue, i: nat)
    requires Inv(q) && i < |q.pcs| && q.pcs[i].PushLoaded? && q.pcs[i].tail == q.tail < q.head + q.capacity
    requires forall j :: 0 <= j < |q.pcs| && j != i ==> q.pcs[j] == Idle
    ensures CanAdvance(q, i) && Advance(q, i).pcs == q.pcs[i := PushChecked(q.pcs[i].value, q.tail)]
    ensures Advance(q, i).head == q.head && Advance(q, i).tail == q.tail
  {
    PushRefusedExactly(q, i);
    AdvanceMoves(q, i);
    InvTickets(q);
    assert PcOk(q, i);
    hide Inv, SlotOf;
  }

  lemma PushChecks(f: Flow, i: nat)
    requires FlowInv(f) && i < |f.queue.pcs| && f.queue.pcs[i].PushLoaded?
    requires f.queue.pcs[i].tail == f.queue.tail < f.queue.head + f.queue.capacity
    requires forall j :: 0 <= j < |f.queue.pcs| && j != i ==> f.queue.pcs[j] == Idle
    ensures FlowEnabled(f, i, Go) && FlowInv(FlowStep(f, i, Go))
    ensures var f' := FlowStep(f, i, Go);
            && OnlyThreadMoved(f, f', i, PushChecked(f.queue.pcs[i].value, f.queue.tail))
            && f'.queue.tail == f.queue.tail && f'.posting == f.posting
    ensures FinishCall(f, i) == FinishCall(FlowStep(f, i, Go), i)
  {
    assert Inv(f.queue);
    FinishCallUnfolds(f, i);
    StepKeepsSetup(f, i, Go);
    hide FlowInv, Roles, FinishCall, Inv, Advance, CanAdvance, SlotOf;
    PushFindsRoom(f.queue, i);
  }

  lemma PushSwaps(f: Flow, i: nat)
    requires FlowInv(f) && i < |f.queue.pcs| && f.queue.pcs[i].PushChecked? && f.queue.pcs[i].tail == f.queue.tail
    ensures FlowEnabled(f, i, Go) && FlowInv(FlowStep(f, i, Go))
    ensures var f' := FlowStep(f, i, Go);
            && OnlyThreadMoved(f, f', i, f'.queue.pcs[i]) && f'.queue.pcs[i].PushCopying?
            && f'.queue.tail == f.queue.tail + 1 && f'.posting == f.posting
    ensures FinishCall(f, i) == FinishCall(FlowStep(f, i, Go), i)
  {
    assert Inv(f.queue);
    FinishCallUnfolds(f, i);
    StepKeepsSetup(f, i, Go);
    hide FlowInv, Roles, FinishCall, Inv, Advance, CanAdvance, SlotOf;
    AdvanceMoves(f.queue, i);
  }

  lemma PushLoads(f: Flow, i: nat, v: Value)
    requires FlowInv(f) && Quiet(f) && i < |f.producers| && f.producers[i] && |v| == f.queue.width
    ensures |f.queue.pcs| == |f.posting| == |f.producers|
    ensures FlowEnabled(f, i, On(v)) && FlowInv(FlowStep(f, i, On(v)))
    ensures var f' := FlowStep(f, i, On(v));
            && OnlyThreadMoved(f, f', i, PushLoaded(v, f.queue.tail))
            && f'.queue.tail == f.queue.tail && f'.posting == f.posting
  {
    FlowStepKeeps(f, i, On(v));
    hide Inv, SlotOf;
  }

  predicate OneMore(f: Flow, f': Flow) {
    && SameSetup(f, f') && Quiet(f') && f'.requested == f.requested
    && f'.queue.head == f.queue.head && f'.queue.tail == f.queue.tail + 1
    && f'.tokens == (if f.tokens < f.room then f.tokens + 1 else f.tokens)
    && f'.lost == (if f.tokens < f.room then f.lost else f.lost + 1)
  }

  lemma PushPosts(f: Flow, i: nat)
    requires FlowInv(f) && Quiescent(f.queue) && i < |f.posting| && f.posting[i]
    requires forall j :: 0 <= j < |f.posting| && j != i ==> !f.posting[j]
    ensures FlowEnabled(f, i, Post) && FlowInv(FlowStep(f, i, Post))
    ensures var f' := FlowStep(f, i, Post);
            && SameSetup(f, f') && Quiet(f') && f'.queue == f.queue && f'.requested == f.requested
            && f'.tokens == (if f.tokens < f.room then f.tokens + 1 else f.tokens)
            && f'.lost == (if f.tokens < f.room then f.lost else f.lost + 1)
  {
    FlowStepKeeps(f, i, Post);
    hide Inv, SlotOf;
  }

  lemma PushCompletes(f: Flow, i: nat)
    requires FlowInv(f) && i < |f.queue.pcs| && f.queue.pcs[i].PushLoaded?
    requires f.queue.pcs[i].tail == f.queue.tail < f.queue.head + f.queue.capacity
    requires forall j :: 0 <= j < |f.queue.pcs| && j != i ==> f.queue.pcs[j] == Idle
    ensures i < |f.posting|
    ensures var f' := FinishCall(f, i);
            OnlyThreadMoved(f, f', i, Idle) && f'.queue.tail == f.queue.tail + 1 && f'.posting == f.posting[i := true]
  {
    PushChecks(f, i);
    hide FlowInv, FlowStep, FlowEnabled, FinishCall;
    var f1 := FlowStep(f, i, Go);
    PushSwaps(f1, i);
    FinishPush(FlowStep(f1, i, Go), i);
  }

  // The call itself, up to the token that is still to be posted.
  lemma PushReturns(f: Flow, i: nat, v: Value) returns (f': Flow)
    requires Reachable(f) && FlowInv(f) && i < |f.queue.pcs|
    requires FlowEnabled(f, i, On(v)) && FlowInv(FlowStep(f, i, On(v)))
    requires var f1 := FlowStep(f, i, On(v));
             && OnlyThreadMoved(f, f1, i, PushLoaded(v, f.queue.tail))
             && f1.queue.tail == f.queue.tail && f1.posting == f.posting
    requires f.queue.tail < f.queue.head + f.queue.capacity
    requires forall j :: 0 <= j < |f.queue.pcs| ==> f.queue.pcs[j] == Idle
    ensures Reachable(f') && FlowInv(f') && OnlyThreadMoved(f, f', i, Idle)
    ensures i < |f.posting| && f'.queue.tail == f.queue.tail + 1 && f'.posting == f.posting[i := true]
  {
    StepReachable(f, i, On(v));
    var f1 := FlowStep(f, i, On(v));
    hide FlowInv, FlowStep, FlowEnabled, FinishCall, Reachable;
    FinishReachable(f1, i);
    PushCompletes(f1, i);
    f' := FinishCall(f1, i);
  }

  // At rest and with a slot free, a producer can push one more item and post its token.
  lemma PushOne(f: Flow, i: nat, v: Value) returns (f': Flow)
    requires Reachable(f) && FlowInv(f) && Quiet(f) && i < |f.producers| && f.producers[i] && |v| == f.queue.width
    requires f.queue.tail < f.queue.head + f.queue.capacity
    ensures Reachable(f') && FlowInv(f') && OneMore(f, f')
  {
    hide FlowInv, FlowStep, FlowEnabled, Reachable;
    PushLoads(f, i, v);
    var f1 := PushReturns(f, i, v);
    PushPosts(f1, i);
    StepReachable(f1, i, Post);
    f' := FlowStep(f1, i, Post);
  }

  /* ---- As many pushes as there are slots ---- */

  function Start(producers: seq<bool>, capacity: nat, room: nat): Flow
    requires capacity >= 1
  {
    var n := |producers|;
    Flow(Queue(capacity, 1, 0, 0, seq(capacity, j requires 0 <= j < capacity => Slot([0], j)), seq(n, _ => Idle), [],
           map[], seq(capacity, _ => -1)),
         producers, room, seq(n, _ => false), 0, [], 0, 0, 0)
  }

  // n pushes, nobody popping: the first tokens find room, the others are refused.
  lemma {:induction false} PushMany(producers: seq<bool>, capacity: nat, room: nat, i: nat, n: nat) returns (f: Flow)
    requires capacity >= 2 && i < |producers| && producers[i] && n <= capacity
    ensures Reachable(f) && FlowInv(f) && Quiet(f) && SameSetup(Start(producers, capacity, room), f)
    ensures f.queue.head == 0 && f.queue.tail == n && f.requested == 0
    ensures f.tokens == (if n <= room then n else room) && f.lost == (if n <= room then 0 else n - room)
  {
    if n == 0 {
      f := Start(producers, capacity, room);
      InitReachable(f);
      FlowInitInv(f);
    } else {
      var f0 := PushMany(producers, capacity, room, i, n - 1);
      hide FlowInv, Reachable, Quiet;
      f := PushOne(f0, i, [0]);
    }
  }

  /* ---- Exactly how much room is enough ---- */

  // In no run without request() is a token refused.
  ghost predicate NeverRefuses(producers: seq<bool>, capacity: nat, room: nat) {
    forall run: seq<Flow>, k: nat ::
      IsFlowRun(run) && k < |run| && Has(run[0], producers, capacity, room) && run[k].requested == 0
      ==> run[k].lost == 0
  }

  predicate Has(f: Flow, producers: seq<bool>, capacity: nat, room: nat) {
    f.producers == producers && f.queue.capacity == capacity && f.room == room
  }

  // With less room, a run without request() that comes to rest with a token refused.
  lemma ScantRoomLoses(producers: seq<bool>, capacity: nat, room: nat) returns (run: seq<Flow>, k: nat)
    requires capacity >= 2 && Count(producers) >= 1 && room < capacity
    ensures IsFlowRun(run) && k < |run| && Has(run[0], producers, capacity, room)
    ensures Quiet(run[k]) && run[k].requested == 0 && run[k].lost == 1
  {
    var i := OneCounted(producers);
    var f := PushMany(producers, capacity, room, i, room + 1);
    hide IsFlowRun, Quiet, FlowInv;
    var r, j: nat :| IsFlowRun(r) && j < |r| && r[j] == f;
    run, k := r, j;
    SetupFixed(run, k);
  }

  // No token is ever refused exactly when the pipe has a place for every slot of the queue, or nobody pushes.
  lemma NeverRefusesIff(producers: seq<bool>, capacity: nat, room: nat)
    requires capacity >= 2
    ensures NeverRefuses(producers, capacity, room) <==> Count(producers) == 0 || room >= capacity
  {
    hide IsFlowRun, Quiet;
    if AmpleRoom(producers, capacity, room) {
      forall run: seq<Flow>, k: nat |
        IsFlowRun(run) && k < |run| && Has(run[0], producers, capacity, room) && run[k].requested == 0
        ensures run[k].lost == 0
      {
        AmpleRoomLosesNothing(run, k);
      }
    } else {
      var run, k := ScantRoomLoses(producers, capacity, room);
    }
  }
}
