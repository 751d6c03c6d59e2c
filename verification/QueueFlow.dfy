/** The asynchronous `QueueFlow` over the lock-free queue.

    A producer pushes an item and, if that succeeds, posts a token to the consuming
    thread's pipe, which refuses it when no place is free; the producer does not care.
    The consumer takes one token at a time and pops one item for it.  Pushing, posting,
    taking and popping interleave with everything else.  Thread 0 is the consumer and
    also the one that may call `request()`; `producers` says which threads push, and
    thread 0 may be one of them. */
module QueueFlow {
  import opened LockFreeQueue
  import opened LockFreeTheorems

  datatype Flow = Flow(
    queue: Queue,
    producers: seq<bool>,  // by thread: it may push; this never changes
    room: nat,             // how many tokens the pipe can hold; this never changes
    posting: seq<bool>,    // by thread: its push succeeded and its token is not yet posted
    tokens: nat,           // tokens in the pipe
    emitted: seq<Value>,
    lost: nat,             // tokens the pipe refused
    noData: nat,           // pops that found nothing
    requested: nat)        // pops made without a token

  datatype FlowAction = On(value: Value) | Post | Take | Request | Go

  predicate FlowEnabled(f: Flow, i: nat, a: FlowAction) {
    && Shape(f.queue) && i < |f.queue.pcs| == |f.posting| == |f.producers|
    && match a
       case On(v) => f.producers[i] && !f.posting[i] && Enabled(f.queue, i, CallPush(v))
       case Post => f.posting[i]
       case Take => i == 0 && !f.posting[i] && f.tokens > 0 && Enabled(f.queue, i, CallPop)
       case Request => i == 0 && !f.posting[i] && Enabled(f.queue, i, CallPop)
       case Go => Enabled(f.queue, i, Continue)
  }

  // The thread's next step ends a push with success, a pop with an item, a pop without one.
  predicate PushEnds(q: Queue, i: nat)
    requires i < |q.pcs|
  {
    q.pcs[i].PushCopying? && q.pcs[i].done >= q.width
  }

  predicate PopEnds(q: Queue, i: nat)
    requires i < |q.pcs|
  {
    q.pcs[i].PopCopying? && |q.pcs[i].got| >= q.width
  }

  predicate PopFails(q: Queue, i: nat)
    requires CanAdvance(q, i)
  {
    (q.pcs[i].PopLoaded? || q.pcs[i].PopChecked?) && Advance(q, i).pcs[i] == Idle
  }

  function FlowStep(f: Flow, i: nat, a: FlowAction): Flow
    requires FlowEnabled(f, i, a)
  {
    match a
    case On(v) => f.(queue := StartPush(f.queue, i, v))
    case Post =>
      if f.tokens < f.room then f.(posting := f.posting[i := false], tokens := f.tokens + 1)
      else f.(posting := f.posting[i := false], lost := f.lost + 1)
    case Take => f.(queue := StartPop(f.queue, i), tokens := f.tokens - 1)
    case Request => f.(queue := StartPop(f.queue, i), requested := f.requested + 1)
    case Go =>
      f.(queue := Advance(f.queue, i),
         posting := if PushEnds(f.queue, i) then f.posting[i := true] else f.posting,
         emitted := if PopEnds(f.queue, i) then f.emitted + [f.queue.pcs[i].got] else f.emitted,
         noData := if PopFails(f.queue, i) then f.noData + 1 else f.noData)
  }

  predicate FlowInit(f: Flow) {
    && Init(f.queue) && f.queue.capacity >= 2 && |f.queue.pcs| == |f.posting| == |f.producers| > 0
    && (forall i :: 0 <= i < |f.posting| ==> !f.posting[i])
    && f.tokens == f.lost == f.noData == f.requested == 0 && f.emitted == []
  }

  ghost predicate FlowNext(f: Flow, f': Flow) {
    exists i: nat, a: FlowAction :: FlowEnabled(f, i, a) && f' == FlowStep(f, i, a)
  }

  ghost predicate IsFlowRun(run: seq<Flow>) {
    && run != [] && FlowInit(run[0])
    && (forall k :: 0 <= k < |run| - 1 ==> FlowNext(run[k], run[k + 1]))
  }

  /* ---- Counting threads ---- */

  function Count(bs: seq<bool>): nat {
    if bs == [] then 0 else Count(bs[..|bs| - 1]) + (if bs[|bs| - 1] then 1 else 0)
  }

  lemma {:induction false} CountUpdate(bs: seq<bool>, i: nat, b: bool)
    requires i < |bs|
    ensures Count(bs[i := b]) + (if bs[i] then 1 else 0) == Count(bs) + (if b then 1 else 0)
  {
    var n := |bs| - 1;
    if i < n {
      assert bs[i := b][..n] == bs[..n][i := b];
      CountUpdate(bs[..n], i, b);
    } else {
      assert bs[i := b][..n] == bs[..n];
    }
  }

  lemma {:induction false} NoneCounted(bs: seq<bool>)
    requires forall i :: 0 <= i < |bs| ==> !bs[i]
    ensures Count(bs) == 0
  {
    if bs != [] {
      NoneCounted(bs[..|bs| - 1]);
    }
  }

  lemma {:induction false} SomeCounted(bs: seq<bool>, i: nat)
    requires i < |bs| && bs[i]
    ensures Count(bs) >= 1
  {
    if i < |bs| - 1 {
      SomeCounted(bs[..|bs| - 1], i);
    }
  }

  lemma {:induction false} TwoCounted(bs: seq<bool>, i: nat, j: nat)
    requires i < j < |bs| && bs[i] && bs[j]
    ensures Count(bs) >= 2
  {
    var n := |bs| - 1;
    if j < n {
      TwoCounted(bs[..n], i, j);
    } else {
      SomeCounted(bs[..n], i);
    }
  }

  lemma {:induction false} OneCounted(bs: seq<bool>) returns (i: nat)
    requires Count(bs) >= 1
    ensures i < |bs| && bs[i]
  {
    var n := |bs| - 1;
    if bs[n] {
      i := n;
    } else {
      i := OneCounted(bs[..n]);
    }
  }

  function Writers(pcs: seq<Pc>): nat {
    if pcs == [] then 0 else Writers(pcs[..|pcs| - 1]) + (if pcs[|pcs| - 1].PushCopying? then 1 else 0)
  }

  lemma {:induction false} WritersUpdate(pcs: seq<Pc>, i: nat, pc: Pc)
    requires i < |pcs|
    ensures Writers(pcs[i := pc]) + (if pcs[i].PushCopying? then 1 else 0)
         == Writers(pcs) + (if pc.PushCopying? then 1 else 0)
  {
    var n := |pcs| - 1;
    if i < n {
      assert pcs[i := pc][..n] == pcs[..n][i := pc];
      WritersUpdate(pcs[..n], i, pc);
    } else {
      assert pcs[i := pc][..n] == pcs[..n];
    }
  }

  lemma {:induction false} NoWriters(pcs: seq<Pc>)
    requires forall i :: 0 <= i < |pcs| ==> !pcs[i].PushCopying?
    ensures Writers(pcs) == 0
  {
    if pcs != [] {
      NoWriters(pcs[..|pcs| - 1]);
    }
  }

  lemma {:induction false} SomeWriter(pcs: seq<Pc>, i: nat)
    requires i < |pcs| && pcs[i].PushCopying?
    ensures Writers(pcs) >= 1
  {
    if i < |pcs| - 1 {
      SomeWriter(pcs[..|pcs| - 1], i);
    }
  }

  /* ---- The invariant ---- */

  predicate Popping(pc: Pc) {
    pc.PopLoaded? || pc.PopChecked?
  }

  predicate PopAt(pc: Pc, head: nat) {
    && (pc.PopLoaded? ==> pc.head == head)
    && (pc.PopChecked? ==> pc.head == head)
    && (pc.PopCopying? ==> pc.head + 1 == head)
  }

  predicate Pushing(pc: Pc) {
    pc.PushLoaded? || pc.PushChecked? || pc.PushCopying?
  }

  predicate Role(f: Flow, i: nat)
    requires i < |f.queue.pcs| == |f.posting| == |f.producers|
  {
    && (i > 0 ==> !Popping(f.queue.pcs[i]) && !f.queue.pcs[i].PopCopying?)
    && (f.posting[i] ==> f.queue.pcs[i] == Idle && f.producers[i])
    && (Pushing(f.queue.pcs[i]) ==> f.producers[i])
    && (SoleProducer(f.producers) && f.queue.pcs[i].PushCopying? ==> f.queue.pcs[i].tail + 1 == f.queue.tail)
  }

  predicate Roles(f: Flow) {
    && 0 < |f.queue.pcs| == |f.posting| == |f.producers|
    && PopAt(f.queue.pcs[0], f.queue.head)
    && (forall i :: 0 <= i < |f.posting| ==> Role(f, i))
  }

  // At most one thread pushes.
  predicate SoleProducer(producers: seq<bool>) {
    Count(producers) <= 1
  }

  // Every item held is accounted for by a token, by a token yet to come, or by a token that was spent in vain.
  predicate Account(f: Flow)
    requires 0 < |f.queue.pcs| && f.queue.head <= f.queue.tail
  {
    f.queue.tail - f.queue.head + f.requested
    == f.tokens + Count(f.posting) + Writers(f.queue.pcs)
       + (if Popping(f.queue.pcs[0]) then 1 else 0) + f.lost + f.noData
  }

  predicate EmittedOk(f: Flow)
    requires 0 < |f.queue.pcs| && f.queue.head <= |f.queue.pushed|
  {
    && |f.emitted| + (if f.queue.pcs[0].PopCopying? then 1 else 0) == f.queue.head
    && f.emitted == f.queue.pushed[..|f.emitted|]
  }

  ghost predicate FlowInv(f: Flow) {
    Inv(f.queue) && Roles(f) && Account(f) && EmittedOk(f)
  }

  lemma FlowInitInv(f: Flow)
    requires FlowInit(f)
    ensures FlowInv(f)
  {
    InitInv(f.queue);
    NoneCounted(f.posting);
    NoWriters(f.queue.pcs);
  }

  // What one step of thread i does to the queue, as far as the flow is concerned.
  predicate Moved(q: Queue, i: nat, q': Queue)
    requires CanAdvance(q, i) && |q'.pcs| == |q.pcs|
  {
    var pc' := q'.pcs[i];
    && q'.pcs == q.pcs[i := pc'] && q.pushed <= q'.pushed
    && match q.pcs[i]
       case PushLoaded(_, _) => q'.head == q.head && q'.tail == q.tail && (pc' == Idle || pc'.PushChecked?)
       case PushChecked(_, t) =>
         if q.tail == t then
           q'.head == q.head && q'.tail == q.tail + 1 && pc'.PushCopying? && pc'.tail == q.tail
         else q'.head == q.head && q'.tail == q.tail && pc' == Idle
       case PushCopying(_, t, _) =>
         q'.head == q.head && q'.tail == q.tail
         && if PushEnds(q, i) then pc' == Idle else pc'.PushCopying? && pc'.tail == t
       case PopLoaded(h) =>
         q'.head == q.head && q'.tail == q.tail && if PopFails(q, i) then pc' == Idle else pc' == PopChecked(h)
       case PopChecked(h) =>
         if q.head == h then q'.head == q.head + 1 && q'.tail == q.tail && pc' == PopCopying(h, [])
         else q'.head == q.head && q'.tail == q.tail && pc' == Idle
       case PopCopying(h, _) =>
         q'.head == q.head && q'.tail == q.tail
         && if PopEnds(q, i) then pc' == Idle else pc'.PopCopying? && pc'.head == h
       case Idle => false
  }

  lemma AdvanceMoves(q: Queue, i: nat)
    requires Inv(q) && i < |q.pcs| && q.pcs[i] != Idle
    ensures CanAdvance(q, i) && Inv(Advance(q, i))
    ensures |Advance(q, i).pcs| == |q.pcs| && Moved(q, i, Advance(q, i))
  {
    InCallAdvances(q, i);
    StepKeepsHistory(q, i, Continue);
    assert PcOk(q, i);
    hide SlotOf, Inv;
  }

  // A finished pop hands over the value of its ticket.
  lemma PopHandsOver(q: Queue, i: nat)
    requires Inv(q) && i < |q.pcs| && q.pcs[i].PopCopying? && PopEnds(q, i)
    ensures q.pcs[i].head < |q.pushed| && q.pcs[i].got == q.pushed[q.pcs[i].head]
  {
    assert PcOk(q, i);
  }

  lemma InvTickets(q: Queue)
    requires Inv(q)
    ensures q.head <= q.tail == |q.pushed|
  {
  }

  lemma SoleProducerIsAlone(producers: seq<bool>)
    requires SoleProducer(producers)
    ensures forall i, j :: 0 <= i < j < |producers| ==> !producers[i] || !producers[j]
  {
    forall i, j | 0 <= i < j < |producers|
      ensures !producers[i] || !producers[j]
    {
      if producers[i] && producers[j] {
        TwoCounted(producers, i, j);
      }
    }
  }

  lemma GoKeepsRole(f: Flow, i: nat, j: nat)
    requires FlowInv(f) && FlowEnabled(f, i, Go) && j < |f.posting|
    ensures |FlowStep(f, i, Go).queue.pcs| == |f.posting|
    ensures Role(FlowStep(f, i, Go), j)
  {
    assert Role(f, i) && Role(f, j);
    AdvanceMoves(f.queue, i);
    if SoleProducer(f.producers) {
      SoleProducerIsAlone(f.producers);
    }
    hide Inv, Advance, CanAdvance, SlotOf, Account, EmittedOk, SoleProducer, Roles;
  }

  lemma GoKeepsRoles(f: Flow, i: nat)
    requires FlowInv(f) && FlowEnabled(f, i, Go)
    ensures Roles(FlowStep(f, i, Go))
  {
    AdvanceMoves(f.queue, i);
    assert Role(f, i);
    hide Inv, Advance, CanAdvance, SlotOf, Account, EmittedOk;
    var f' := FlowStep(f, i, Go);
    forall j | 0 <= j < |f'.posting|
      ensures Role(f', j)
    {
      GoKeepsRole(f, i, j);
    }
    hide Role;
  }

  lemma GoKeepsAccount(f: Flow, i: nat)
    requires FlowInv(f) && FlowEnabled(f, i, Go)
    ensures var f' := FlowStep(f, i, Go);
            0 < |f'.queue.pcs| && f'.queue.head <= f'.queue.tail && Account(f')
  {
    var q := f.queue;
    AdvanceMoves(q, i);
    InvTickets(q);
    InvTickets(Advance(q, i));
    hide Inv, Advance, CanAdvance, SlotOf, EmittedOk;
    assert Role(f, i) && Role(f, 0);
    WritersUpdate(q.pcs, i, Advance(q, i).pcs[i]);
    CountUpdate(f.posting, i, true);
  }

  lemma GoKeepsEmitted(f: Flow, i: nat)
    requires FlowInv(f) && FlowEnabled(f, i, Go)
    ensures var f' := FlowStep(f, i, Go);
            0 < |f'.queue.pcs| && f'.queue.head <= |f'.queue.pushed| && EmittedOk(f')
  {
    var q := f.queue;
    AdvanceMoves(q, i);
    InvTickets(q);
    InvTickets(Advance(q, i));
    if q.pcs[i].PopCopying? && PopEnds(q, i) {
      PopHandsOver(q, i);
    }
    assert Role(f, i);
    hide Inv, Advance, CanAdvance, SlotOf, Account;
  }

  lemma GoKeeps(f: Flow, i: nat)
    requires FlowInv(f) && FlowEnabled(f, i, Go)
    ensures FlowInv(FlowStep(f, i, Go))
  {
    GoKeepsRoles(f, i);
    GoKeepsAccount(f, i);
    GoKeepsEmitted(f, i);
    AdvanceMoves(f.queue, i);
    hide Inv, Roles, Account, EmittedOk, Advance, CanAdvance, SlotOf;
  }

  lemma CallKeeps(f: Flow, i: nat, a: FlowAction)
    requires FlowInv(f) && FlowEnabled(f, i, a) && a != Go && !a.Post?
    ensures FlowInv(FlowStep(f, i, a))
  {
    var q := f.queue;
    InvTickets(q);
    StepKeepsInv(q, i, if a.On? then CallPush(a.value) else CallPop);
    hide Inv, SlotOf;
    WritersUpdate(q.pcs, i, FlowStep(f, i, a).queue.pcs[i]);
    KeepsRoles(f, FlowStep(f, i, a), i);
  }

  lemma KeepsRoles(f: Flow, f': Flow, i: nat)
    requires Roles(f) && |f'.queue.pcs| == |f'.posting| == |f.posting| && f'.producers == f.producers
    requires f'.queue.head == f.queue.head && f'.queue.tail == f.queue.tail
    requires i < |f.posting| && Role(f', i) && (i == 0 ==> PopAt(f'.queue.pcs[0], f.queue.head))
    requires f'.queue.pcs == f.queue.pcs[i := f'.queue.pcs[i]] && f'.posting == f.posting[i := f'.posting[i]]
    ensures Roles(f')
  {
    forall j | 0 <= j < |f'.posting|
      ensures Role(f', j)
    {
      assert Role(f, j);
    }
  }

  lemma PostKeeps(f: Flow, i: nat)
    requires FlowInv(f) && FlowEnabled(f, i, Post)
    ensures FlowInv(FlowStep(f, i, Post))
  {
    InvTickets(f.queue);
    hide Inv, SlotOf;
    CountUpdate(f.posting, i, false);
    assert Role(f, i);
    KeepsRoles(f, FlowStep(f, i, Post), i);
  }

  lemma FlowStepKeeps(f: Flow, i: nat, a: FlowAction)
    requires FlowInv(f) && FlowEnabled(f, i, a)
    ensures FlowInv(FlowStep(f, i, a))
  {
    hide FlowInv;
    match a
    case Go => GoKeeps(f, i);
    case Post => PostKeeps(f, i);
    case _ => CallKeeps(f, i, a);
  }

  lemma {:induction false} FlowRunInv(run: seq<Flow>, k: nat)
    requires IsFlowRun(run) && k < |run|
    ensures FlowInv(run[k])
  {
    hide FlowInv, FlowStep, FlowInit;
    if k == 0 {
      FlowInitInv(run[0]);
    } else {
      FlowRunInv(run, k - 1);
      assert FlowNext(run[k - 1], run[k]);
      var i: nat, a: FlowAction :| FlowEnabled(run[k - 1], i, a) && run[k] == FlowStep(run[k - 1], i, a);
      FlowStepKeeps(run[k - 1], i, a);
    }
  }

  /* ---- Conservation ---- */

  // In every run the accepted items are the emitted ones, the one being handed over, and the ones held, in this order;
  // and every item held is accounted for.
  lemma Conservation(run: seq<Flow>, k: nat)
    requires IsFlowRun(run) && k < |run|
    ensures var f := run[k];
            && 0 < |f.queue.pcs| && f.queue.head <= f.queue.tail == |f.queue.pushed|
            && Account(f)
            && f.queue.pushed
               == f.emitted
                  + (if f.queue.pcs[0].PopCopying? && f.queue.head > 0 then [f.queue.pushed[f.queue.head - 1]] else [])
                  + Contents(f.queue)
  {
    FlowRunInv(run, k);
    InvTickets(run[k].queue);
    hide IsFlowRun, Inv, Account, Roles;
  }

  // Without request(), tokens never outnumber the items held.
  lemma TokensBounded(run: seq<Flow>, k: nat)
    requires IsFlowRun(run) && k < |run| && run[k].requested == 0
    ensures var q := run[k].queue;
            q.head <= q.tail == |q.pushed| && run[k].tokens <= |Contents(q)|
  {
    Conservation(run, k);
    hide IsFlowRun;
  }

  predicate Quiet(f: Flow) {
    Quiescent(f.queue) && (forall i :: 0 <= i < |f.posting| ==> !f.posting[i])
  }

  // At rest every item held has its token exactly when no token was lost and none spent in vain.
  lemma QuietAccount(run: seq<Flow>, k: nat)
    requires IsFlowRun(run) && k < |run| && Quiet(run[k])
    ensures var q := run[k].queue;
            && q.head <= q.tail == |q.pushed|
            && |Contents(q)| + run[k].requested == run[k].tokens + run[k].lost + run[k].noData
            && q.pushed == run[k].emitted + Contents(q)
  {
    Conservation(run, k);
    hide IsFlowRun;
    NoneCounted(run[k].posting);
    NoWriters(run[k].queue.pcs);
  }

  /* ---- Refused tokens ---- */

  // Without request(), whoever is about to post finds fewer tokens in the pipe than the queue has slots.
  lemma PostingFindsRoom(f: Flow, i: nat)
    requires FlowInv(f) && i < |f.posting| && f.posting[i] && f.requested == 0
    ensures f.tokens < f.queue.capacity
  {
    SomeCounted(f.posting, i);
    hide Roles, EmittedOk;
  }

  // Enough places in the pipe for every slot of the queue, or nobody to push.
  predicate AmpleRoom(producers: seq<bool>, capacity: nat, room: nat) {
    Count(producers) == 0 || room >= capacity
  }

  lemma AmpleRoomStep(f: Flow, i: nat, a: FlowAction)
    requires FlowInv(f) && FlowEnabled(f, i, a) && f.requested == 0
    requires AmpleRoom(f.producers, f.queue.capacity, f.room)
    ensures FlowStep(f, i, a).lost == f.lost
  {
    if a == Post {
      PostingFindsRoom(f, i);
      assert Role(f, i);
      SomeCounted(f.producers, i);
    }
    hide FlowInv, Advance, SlotOf;
  }

  // Then no token is refused in any run without request().
  lemma {:induction false} AmpleRoomLosesNothing(run: seq<Flow>, k: nat)
    requires IsFlowRun(run) && k < |run| && run[k].requested == 0
    requires AmpleRoom(run[0].producers, run[0].queue.capacity, run[0].room)
    ensures run[k].lost == 0
  {
    hide FlowInv, FlowStep, FlowEnabled, AmpleRoom;
    if k > 0 {
      FlowRunInv(run, k - 1);
      assert FlowNext(run[k - 1], run[k]);
      var i: nat, a: FlowAction :| FlowEnabled(run[k - 1], i, a) && run[k] == FlowStep(run[k - 1], i, a);
      SetupFixed(run, k - 1);
      StepKeepsSetup(run[k - 1], i, a);
      AmpleRoomStep(run[k - 1], i, a);
      AmpleRoomLosesNothing(run, k - 1);
    }
  }

  /* ---- One producer ---- */

  lemma SoleProducerFindsData(f: Flow, i: nat)
    requires FlowInv(f) && FlowEnabled(f, i, Go) && SoleProducer(f.producers) && f.requested == 0
    ensures FlowStep(f, i, Go).noData == f.noData
  {
    var q := f.queue;
    assert Role(f, i) && Role(f, 0);
    if q.pcs[i].PopLoaded? {
      PopRefusedExactly(q, i);
      InvTickets(q);
      var w := q.owner[SlotOf(q.capacity, q.head)];
      hide Inv, SlotOf, SoleProducer;
      if Writing(q, w, q.head) {
        assert Role(f, w);
        SomeWriter(q.pcs, w);
      }
    } else if q.pcs[i].PopChecked? {
      hide Inv, SlotOf;
    }
  }

  lemma SoleProducerStep(f: Flow, i: nat, a: FlowAction)
    requires FlowInv(f) && FlowEnabled(f, i, a) && SoleProducer(f.producers)
    ensures f.requested == 0 ==> FlowStep(f, i, a).noData == f.noData
  {
    if a == Go && f.requested == 0 {
      SoleProducerFindsData(f, i);
    }
    hide FlowInv, Advance, SlotOf;
  }

  // What a flow is set up with.
  predicate SameSetup(f: Flow, f': Flow) {
    && f'.producers == f.producers && f'.room == f.room
    && f'.queue.capacity == f.queue.capacity && f'.queue.width == f.queue.width
  }

  lemma StepKeepsSetup(f: Flow, i: nat, a: FlowAction)
    requires FlowEnabled(f, i, a)
    ensures SameSetup(f, FlowStep(f, i, a)) && f.requested <= FlowStep(f, i, a).requested
  {
    if a == Go {
      StepKeepsCapacity(f.queue, i, Continue);
    }
    hide Advance, SlotOf;
  }

  lemma {:induction false} SetupFixed(run: seq<Flow>, k: nat)
    requires IsFlowRun(run) && k < |run|
    ensures SameSetup(run[0], run[k])
  {
    hide FlowStep, FlowEnabled;
    if k > 0 {
      SetupFixed(run, k - 1);
      assert FlowNext(run[k - 1], run[k]);
      var i: nat, a: FlowAction :| FlowEnabled(run[k - 1], i, a) && run[k] == FlowStep(run[k - 1], i, a);
      StepKeepsSetup(run[k - 1], i, a);
    }
  }

  // With one producer and no request(), every token finds its item.
  lemma {:induction false} SoleProducerNeverEmpty(run: seq<Flow>, k: nat)
    requires IsFlowRun(run) && k < |run| && SoleProducer(run[0].producers) && run[k].requested == 0
    ensures run[k].noData == 0
  {
    hide FlowInv, FlowStep, FlowEnabled, SoleProducer;
    if k > 0 {
      FlowRunInv(run, k - 1);
      assert FlowNext(run[k - 1], run[k]);
      var f := run[k - 1];
      var i: nat, a: FlowAction :| FlowEnabled(f, i, a) && run[k] == FlowStep(f, i, a);
      SetupFixed(run, k - 1);
      StepKeepsSetup(f, i, a);
      SoleProducerStep(f, i, a);
      SoleProducerNeverEmpty(run, k - 1);
    }
  }

  /* ---- Draining ---- */

  // Thread i completes the push or pop it is in while the others rest.
  ghost function FinishCall(f: Flow, i: nat): (f': Flow)
    requires FlowInv(f) && i < |f.queue.pcs|
    ensures FlowInv(f')
    decreases StepsLeft(f.queue.width, f.queue.pcs[i])
  {
    if f.queue.pcs[i] == Idle then f
    else
      InCallAdvances(f.queue, i);
      FlowStepKeeps(f, i, Go);
      FinishCall(FlowStep(f, i, Go), i)
  }

  lemma FinishCallUnfolds(f: Flow, i: nat)
    requires FlowInv(f) && i < |f.queue.pcs| && f.queue.pcs[i] != Idle
    ensures FlowEnabled(f, i, Go) && FlowInv(FlowStep(f, i, Go)) && |FlowStep(f, i, Go).queue.pcs| == |f.queue.pcs|
    ensures FinishCall(f, i) == FinishCall(FlowStep(f, i, Go), i)
    ensures StepsLeft(f.queue.width, FlowStep(f, i, Go).queue.pcs[i]) < StepsLeft(f.queue.width, f.queue.pcs[i])
    ensures FlowStep(f, i, Go).queue.width == f.queue.width
  {
    InCallAdvances(f.queue, i);
    FlowStepKeeps(f, i, Go);
  }

  lemma {:induction false} FinishHandOver(f: Flow)
    requires FlowInv(f) && f.queue.pcs[0].PopCopying?
    ensures f.queue.pcs[0].head < |f.queue.pushed|
    ensures var f' := FinishCall(f, 0);
            && f'.emitted == f.emitted + [f.queue.pushed[f.queue.pcs[0].head]]
            && f'.queue.pcs == f.queue.pcs[0 := Idle] && f'.queue.head == f.queue.head
            && f'.queue.tail == f.queue.tail && f'.queue.pushed == f.queue.pushed
            && f'.posting == f.posting && f'.tokens == f.tokens
    decreases StepsLeft(f.queue.width, f.queue.pcs[0])
  {
    assert Inv(f.queue);
    assert PcOk(f.queue, 0);
    FinishCallUnfolds(f, 0);
    if PopEnds(f.queue, 0) {
      PopHandsOver(f.queue, 0);
    }
    hide FlowInv, Roles, Inv, Advance, CanAdvance, SlotOf, PcOk;
    AdvanceMoves(f.queue, 0);
    AdvancePopKeepsPushed(f.queue);
    if !PopEnds(f.queue, 0) {
      FinishHandOver(FlowStep(f, 0, Go));
    }
  }

  lemma AdvancePopKeepsPushed(q: Queue)
    requires Inv(q) && 0 < |q.pcs| && (q.pcs[0].PopLoaded? || q.pcs[0].PopChecked? || q.pcs[0].PopCopying?)
    ensures CanAdvance(q, 0) && Advance(q, 0).pushed == q.pushed && Advance(q, 0).width == q.width
  {
  }

  // f' is f with the consumer's program counter moved to pc.
  predicate OnlyConsumerMoved(f: Flow, f': Flow, pc: Pc)
    requires 0 < |f.queue.pcs|
  {
    && f'.queue.pcs == f.queue.pcs[0 := pc] && f'.queue.tail == f.queue.tail
    && f'.queue.pushed == f.queue.pushed && f'.emitted == f.emitted && f'.posting == f.posting
  }

  lemma ServeLoads(f: Flow)
    requires FlowInv(f) && Quiet(f) && f.tokens > 0
    ensures FlowEnabled(f, 0, Take) && FlowInv(FlowStep(f, 0, Take))
    ensures var f' := FlowStep(f, 0, Take);
            OnlyConsumerMoved(f, f', PopLoaded(f.queue.head)) && f'.queue.head == f.queue.head
            && f'.tokens == f.tokens - 1
  {
    FlowStepKeeps(f, 0, Take);
    hide Inv, SlotOf;
  }

  lemma RequestLoads(f: Flow)
    requires FlowInv(f) && Quiet(f)
    ensures FlowEnabled(f, 0, Request) && FlowInv(FlowStep(f, 0, Request))
    ensures var f' := FlowStep(f, 0, Request);
            OnlyConsumerMoved(f, f', PopLoaded(f.queue.head)) && f'.queue.head == f.queue.head
            && f'.tokens == f.tokens
  {
    FlowStepKeeps(f, 0, Request);
    hide Inv, SlotOf;
  }

  lemma PopFindsItem(q: Queue)
    requires Inv(q) && 0 < |q.pcs| && q.pcs[0].PopLoaded? && q.pcs[0].head == q.head < q.tail
    requires forall i :: 0 < i < |q.pcs| ==> q.pcs[i] == Idle
    ensures CanAdvance(q, 0) && Advance(q, 0).pcs == q.pcs[0 := PopChecked(q.head)] && Advance(q, 0).head == q.head
  {
    PopRefusedExactly(q, 0);
    AdvanceMoves(q, 0);
    InvTickets(q);
    hide Inv, Advance, CanAdvance, SlotOf;
  }

  lemma ServeChecks(f: Flow)
    requires FlowInv(f) && f.queue.pcs[0].PopLoaded? && f.queue.head < f.queue.tail
    requires forall i :: 0 < i < |f.queue.pcs| ==> f.queue.pcs[i] == Idle
    ensures FlowEnabled(f, 0, Go) && FlowInv(FlowStep(f, 0, Go))
    ensures var f' := FlowStep(f, 0, Go);
            OnlyConsumerMoved(f, f', PopChecked(f.queue.head)) && f'.queue.head == f.queue.head
            && f'.tokens == f.tokens
    ensures FinishCall(f, 0) == FinishCall(FlowStep(f, 0, Go), 0)
  {
    assert f.queue.pcs[0].head == f.queue.head && Inv(f.queue);
    FinishCallUnfolds(f, 0);
    hide FlowInv, Roles, FinishCall, Inv, Advance, CanAdvance, SlotOf;
    PopFindsItem(f.queue);
    AdvanceMoves(f.queue, 0);
    AdvancePopKeepsPushed(f.queue);
  }

  lemma ServeSwaps(f: Flow)
    requires FlowInv(f) && f.queue.pcs[0].PopChecked?
    ensures FlowEnabled(f, 0, Go) && FlowInv(FlowStep(f, 0, Go))
    ensures var f' := FlowStep(f, 0, Go);
            OnlyConsumerMoved(f, f', PopCopying(f.queue.head, [])) && f'.queue.head == f.queue.head + 1
            && f'.tokens == f.tokens
    ensures FinishCall(f, 0) == FinishCall(FlowStep(f, 0, Go), 0)
  {
    assert f.queue.pcs[0].head == f.queue.head && Inv(f.queue);
    FinishCallUnfolds(f, 0);
    hide FlowInv, Roles, FinishCall, Inv, Advance, CanAdvance, SlotOf;
    AdvanceMoves(f.queue, 0);
    AdvancePopKeepsPushed(f.queue);
  }

  // f' is f with the oldest item emitted.
  predicate OldestEmitted(f: Flow, f': Flow)
    requires f.queue.head < |f.queue.pushed|
  {
    && f'.emitted == f.emitted + [f.queue.pushed[f.queue.head]] && Quiet(f') && f'.queue.head == f.queue.head + 1
    && f'.queue.tail == f.queue.tail && f'.queue.pushed == f.queue.pushed
  }

  // From the loaded ticket on, with an item there and the others at rest.
  lemma PopEmits(f: Flow)
    requires FlowInv(f) && f.queue.pcs[0] == PopLoaded(f.queue.head) && f.queue.head < f.queue.tail
    requires forall i :: 0 < i < |f.queue.pcs| ==> f.queue.pcs[i] == Idle
    requires forall i :: 0 <= i < |f.posting| ==> !f.posting[i]
    ensures f.queue.head < |f.queue.pushed|
    ensures OldestEmitted(f, FinishCall(f, 0)) && FinishCall(f, 0).tokens == f.tokens
  {
    assert 0 < |f.queue.pcs|;
    InvTickets(f.queue);
    hide FlowInv, FlowStep, FlowEnabled, FinishCall;
    ServeChecks(f);
    var f1 := FlowStep(f, 0, Go);
    ServeSwaps(f1);
    FinishHandOver(FlowStep(f1, 0, Go));
  }

  // Serving one token at rest: the oldest item is emitted.
  lemma ServeOne(f: Flow)
    requires FlowInv(f) && Quiet(f) && f.tokens > 0 && f.queue.head < f.queue.tail
    ensures FlowEnabled(f, 0, Take) && FlowInv(FlowStep(f, 0, Take)) && f.queue.head < |f.queue.pushed|
    ensures var f' := FinishCall(FlowStep(f, 0, Take), 0);
            OldestEmitted(f, f') && f'.tokens == f.tokens - 1
  {
    assert 0 < |f.queue.pcs|;
    hide FlowInv, FlowStep, FlowEnabled, FinishCall;
    ServeLoads(f);
    PopEmits(FlowStep(f, 0, Take));
  }

  // A request() at rest with an item held: the oldest item is emitted and the tokens are left alone.
  lemma RequestEmits(f: Flow)
    requires FlowInv(f) && Quiet(f) && f.queue.head < f.queue.tail
    ensures FlowEnabled(f, 0, Request) && FlowInv(FlowStep(f, 0, Request)) && f.queue.head < |f.queue.pushed|
    ensures var f' := FinishCall(FlowStep(f, 0, Request), 0);
            OldestEmitted(f, f') && f'.tokens == f.tokens
  {
    assert 0 < |f.queue.pcs|;
    hide FlowInv, FlowStep, FlowEnabled, FinishCall;
    RequestLoads(f);
    PopEmits(FlowStep(f, 0, Request));
  }

  // A request() at rest with nothing held changes nothing but the account of pops in vain.
  lemma RequestFindsNothing(f: Flow)
    requires FlowInv(f) && Quiet(f) && f.queue.head == f.queue.tail
    ensures FlowEnabled(f, 0, Request) && FlowInv(FlowStep(f, 0, Request))
    ensures FinishCall(FlowStep(f, 0, Request), 0) == f.(requested := f.requested + 1, noData := f.noData + 1)
  {
    RequestLoads(f);
    var f1 := FlowStep(f, 0, Request);
    PopRefusedExactly(f1.queue, 0);
    FinishCallUnfolds(f1, 0);
    hide FlowInv, Roles, Inv, SlotOf;
    assert f1.queue.pcs[0 := Idle] == f.queue.pcs;
  }

  // The consumer serves tokens until none is left.
  ghost function Drain(f: Flow): (f': Flow)
    requires FlowInv(f) && Quiet(f) && f.queue.head <= f.queue.tail && f.tokens <= f.queue.tail - f.queue.head
    decreases f.tokens
  {
    if f.tokens == 0 then f
    else
      ServeOne(f);
      Drain(FinishCall(FlowStep(f, 0, Take), 0))
  }

  // Each token emits one item, oldest first; when every item has its token everything is emitted.
  lemma {:induction false} DrainEmits(f: Flow)
    requires FlowInv(f) && Quiet(f) && f.queue.head <= f.queue.tail == |f.queue.pushed|
    requires f.tokens <= f.queue.tail - f.queue.head
    ensures Drain(f).emitted == f.emitted + Contents(f.queue)[..f.tokens]
    ensures Drain(f).tokens == 0 && Drain(f).queue.pushed == f.queue.pushed
    decreases f.tokens
  {
    hide FlowInv, FinishCall;
    if f.tokens > 0 {
      ServeOne(f);
      var f' := FinishCall(FlowStep(f, 0, Take), 0);
      DrainEmits(f');
      assert Contents(f.queue)[..f.tokens] == [f.queue.pushed[f.queue.head]] + Contents(f'.queue)[..f'.tokens];
    }
  }

  // Serving the tokens there are emits everything accepted.
  ghost predicate DrainsAll(f: Flow) {
    && FlowInv(f) && Quiet(f) && f.queue.head <= f.queue.tail && f.tokens <= f.queue.tail - f.queue.head
    && Drain(f).emitted == f.queue.pushed
  }

  // Whoever pushes: at rest, draining the thread emits all that was accepted, in order,
  // exactly when no token was lost and none spent in vain.
  lemma DrainsAllIff(run: seq<Flow>, k: nat)
    requires IsFlowRun(run) && k < |run| && Quiet(run[k]) && run[k].requested == 0
    ensures DrainsAll(run[k]) <==> run[k].lost + run[k].noData == 0
  {
    QuietAccount(run, k);
    FlowRunInv(run, k);
    var f := run[k];
    hide IsFlowRun, FlowInv, Drain, Quiet;
    DrainEmits(f);
    var c := Contents(f.queue);
    assert f.emitted + c[..f.tokens] == f.emitted + c <==> f.tokens == |c| by {
      assert f.tokens == |c| ==> c[..f.tokens] == c;
      assert |f.emitted + c[..f.tokens]| == |f.emitted| + f.tokens;
    }
  }

  // One producer, ample room, no request(): at rest, draining the thread emits all that was accepted, in order.
  lemma SoleProducerDrains(run: seq<Flow>, k: nat)
    requires IsFlowRun(run) && k < |run| && SoleProducer(run[0].producers)
    requires AmpleRoom(run[0].producers, run[0].queue.capacity, run[0].room)
    requires Quiet(run[k]) && run[k].requested == 0
    ensures DrainsAll(run[k])
  {
    SoleProducerNeverEmpty(run, k);
    AmpleRoomLosesNothing(run, k);
    DrainsAllIff(run, k);
  }
}
