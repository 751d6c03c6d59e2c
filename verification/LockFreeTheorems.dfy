/** What the lock-free queue guarantees in every interleaving. */
module LockFreeTheorems {
  import opened LockFreeQueue

  /* ---- Every reachable state ---- */

  lemma InitInv(q: Queue)
    requires Init(q) && q.capacity >= 2
    ensures Inv(q)
  {
    forall t | 0 <= t < q.capacity
      ensures FreeOk(q, t)
    {
      FirstRound(q.capacity, t);
    }
  }

  lemma FirstRound(c: nat, t: nat)
    requires t < c
    ensures SlotOf(c, t) == t
  {
  }

  lemma {:induction false} RunInv(run: seq<Queue>, k: nat)
    requires IsRun(run) && run[0].capacity >= 2 && k < |run|
    ensures Inv(run[k]) && run[k].capacity == run[0].capacity
  {
    hide Inv, Step, Init;
    if k == 0 {
      InitInv(run[0]);
    } else {
      RunInv(run, k - 1);
      assert Next(run[k - 1], run[k]);
      var i: nat, a: Action :| Enabled(run[k - 1], i, a) && run[k] == Step(run[k - 1], i, a);
      StepKeepsInv(run[k - 1], i, a);
      StepKeepsCapacity(run[k - 1], i, a);
    }
  }

  lemma StepKeepsCapacity(q: Queue, i: nat, a: Action)
    requires Enabled(q, i, a)
    ensures Step(q, i, a).capacity == q.capacity && Step(q, i, a).width == q.width
    ensures |Step(q, i, a).pcs| == |q.pcs|
  {
  }

  // In every reachable state head <= tail <= head + capacity, and the version of a slot says what its ticket is up to.
  lemma VersionTells(run: seq<Queue>, k: nat, t: nat)
    requires IsRun(run) && run[0].capacity >= 2 && k < |run|
    requires run[k].head <= t < run[k].head + run[0].capacity
    ensures var q := run[k];
            var j := SlotOf(run[0].capacity, t);
            && q.head <= q.tail == |q.pushed| && q.tail <= q.head + run[0].capacity
            && |q.slots| == |q.owner| == run[0].capacity
            && var v, owner := q.slots[j].version, q.owner[j];
            if t < q.tail then
              && (v == t <==> Writing(q, owner, t))
              && (v == t + 1 <==> owner == -1 && q.slots[j].words == q.pushed[t])
              && (v == t || v == t + 1)
            else
              && (v == t <==> owner == -1)
              && (v != t <==> t >= q.capacity && v == t - q.capacity + 1 && Reading(q, owner, t - q.capacity))
  {
    hide SlotOf, IsRun;
    RunInv(run, k);
    var q := run[k];
    assert if t < q.tail then LiveOk(q, t) else FreeOk(q, t);
  }

  predicate Claims(pc: Pc) {
    pc.PushCopying? || pc.PopCopying?
  }

  function ClaimedTicket(pc: Pc): nat
    requires Claims(pc)
  {
    if pc.PushCopying? then pc.tail else pc.head
  }

  // No two threads are ever between compare-and-swap and version store on the same slot: the copying never races.
  lemma RaceFree(run: seq<Queue>, k: nat, i: nat, j: nat)
    requires IsRun(run) && run[0].capacity >= 2 && k < |run|
    requires i < |run[k].pcs| && j < |run[k].pcs| && i != j
    requires Claims(run[k].pcs[i]) && Claims(run[k].pcs[j])
    ensures SlotOf(run[0].capacity, ClaimedTicket(run[k].pcs[i]))
         != SlotOf(run[0].capacity, ClaimedTicket(run[k].pcs[j]))
  {
    hide SlotOf, IsRun;
    RunInv(run, k);
    assert PcOk(run[k], i) && PcOk(run[k], j);
  }

  /* ---- Versions ---- */

  // The thread's next step stores the version of slot j.
  predicate Publishes(q: Queue, i: nat, a: Action, j: nat)
    requires Shape(q)
  {
    && a == Continue && i < |q.pcs| && Claims(q.pcs[i]) && j == SlotOf(q.capacity, ClaimedTicket(q.pcs[i]))
    && (if q.pcs[i].PushCopying? then q.pcs[i].done == q.width else |q.pcs[i].got| == q.width)
  }

  // The version of a slot changes exactly when a thread publishes on that slot, and then it strictly rises.
  lemma VersionsGrow(q: Queue, i: nat, a: Action, j: nat)
    requires Inv(q) && Enabled(q, i, a) && j < q.capacity
    ensures |Step(q, i, a).slots| == q.capacity
    ensures var before, after := q.slots[j].version, Step(q, i, a).slots[j].version;
            if Publishes(q, i, a, j) then
              before < after == before + (if q.pcs[i].PushCopying? then 1 else q.capacity - 1)
            else after == before
  {
    hide SlotOf;
    assert PcOk(q, i);
  }

  lemma InvSlots(q: Queue)
    requires Inv(q)
    ensures |q.slots| == q.capacity
  {
  }

  lemma {:induction false} VersionsNeverFall(run: seq<Queue>, k: nat, l: nat, j: nat)
    requires IsRun(run) && run[0].capacity >= 2 && k <= l < |run| && j < run[0].capacity
    ensures |run[k].slots| == |run[l].slots| == run[0].capacity
    ensures run[k].slots[j].version <= run[l].slots[j].version
    decreases l
  {
    hide Inv, Step, Init;
    RunInv(run, k);
    RunInv(run, l);
    InvSlots(run[k]);
    InvSlots(run[l]);
    if k < l {
      VersionsNeverFall(run, k, l - 1, j);
      RunInv(run, l - 1);
      assert Next(run[l - 1], run[l]);
      var i: nat, a: Action :| Enabled(run[l - 1], i, a) && run[l] == Step(run[l - 1], i, a);
      VersionsGrow(run[l - 1], i, a, j);
    }
  }

  /* ---- Refinement of an atomic queue ---- */

  // The abstract queue: tickets pushed and not yet popped.
  function Contents(q: Queue): seq<Value>
    requires q.head <= q.tail == |q.pushed|
  {
    q.pushed[q.head..]
  }

  predicate TakesTail(q: Queue, i: nat, a: Action) {
    a == Continue && i < |q.pcs| && q.pcs[i].PushChecked? && q.pcs[i].tail == q.tail
  }

  predicate TakesHead(q: Queue, i: nat, a: Action) {
    a == Continue && i < |q.pcs| && q.pcs[i].PopChecked? && q.pcs[i].head == q.head
  }

  // The two successful compare-and-swaps are the enqueue and the dequeue; no other step changes the abstract queue.
  lemma StepRefinesFifo(q: Queue, i: nat, a: Action)
    requires Inv(q) && Enabled(q, i, a)
    ensures var q' := Step(q, i, a);
            && q'.head <= q'.tail == |q'.pushed|
            && (TakesTail(q, i, a) ==>
                  |Contents(q)| < q.capacity && Contents(q') == Contents(q) + [q.pcs[i].value])
            && (TakesHead(q, i, a) ==>
                  Contents(q) != [] && Contents(q) == [q'.pushed[q.head]] + Contents(q')
                  && q'.pcs[i] == PopCopying(q.head, []))
            && (!TakesTail(q, i, a) && !TakesHead(q, i, a) ==> Contents(q') == Contents(q))
  {
    assert PcOk(q, i);
    if TakesTail(q, i, a) {
      TailIsFree(q);
    }
    if TakesHead(q, i, a) {
      HeadIsFilled(q);
    }
    hide SlotOf;
  }

  // What is pushed stays recorded, and a pop returns what its ticket was pushed with.
  lemma StepKeepsHistory(q: Queue, i: nat, a: Action)
    requires Inv(q) && Enabled(q, i, a)
    ensures q.pushed <= Step(q, i, a).pushed
    ensures forall h :: h in q.returned ==> h in Step(q, i, a).returned && Step(q, i, a).returned[h] == q.returned[h]
    ensures forall h :: h in Step(q, i, a).returned && h !in q.returned ==>
              q.pcs[i].PopCopying? && q.pcs[i].head == h < |q.pushed| && Step(q, i, a).returned[h] == q.pushed[h]
  {
    assert PcOk(q, i);
    hide SlotOf;
  }

  // Nothing is lost, duplicated, reordered or torn: ticket by ticket, what was popped is what was pushed.
  lemma PoppedIsPushed(run: seq<Queue>, k: nat)
    requires IsRun(run) && run[0].capacity >= 2 && k < |run|
    ensures var q := run[k];
            && q.head <= q.tail == |q.pushed| && q.tail <= q.head + q.capacity
            && (forall h :: h in q.returned ==> h < q.head && q.returned[h] == q.pushed[h])
            && (forall h :: 0 <= h < q.head && h !in q.returned ==>
                  exists i :: 0 <= i < |q.pcs| && q.pcs[i].PopCopying? && q.pcs[i].head == h)
  {
    hide IsRun, SlotOf;
    RunInv(run, k);
    var q := run[k];
    forall h | h in q.returned
      ensures h < q.head && q.returned[h] == q.pushed[h]
    {
      assert PoppedOk(q, h);
    }
    forall h | 0 <= h < q.head && h !in q.returned
      ensures exists i :: 0 <= i < |q.pcs| && q.pcs[i].PopCopying? && q.pcs[i].head == h
    {
      assert PoppedOk(q, h);
      assert Reading(q, q.owner[SlotOf(q.capacity, h)], h);
    }
  }

  predicate NoPopInFlight(q: Queue) {
    forall i :: 0 <= i < |q.pcs| ==> !q.pcs[i].PopCopying?
  }

  // Once the pops under way are done, the values popped, in ticket order, are a prefix of the values pushed.
  lemma PoppedPrefix(run: seq<Queue>, k: nat)
    requires IsRun(run) && run[0].capacity >= 2 && k < |run| && NoPopInFlight(run[k])
    ensures var q := run[k];
            && q.head <= |q.pushed|
            && (forall h: nat :: h in q.returned <==> h < q.head)
            && seq(q.head, h requires 0 <= h < q.head && h in q.returned => q.returned[h]) == q.pushed[..q.head]
  {
    hide IsRun;
    PoppedIsPushed(run, k);
  }

  /* ---- When a call fails ---- */

  // Every ticket already popped shares its slot with one of the current round.
  lemma {:induction false} SlotInRound(c: nat, t: nat, head: nat) returns (u: nat)
    requires c >= 1 && t < head
    ensures t + c <= u && head <= u < head + c && SlotOf(c, u) == SlotOf(c, t)
    decreases head - t
  {
    SlotsRecur(c, t);
    hide SlotOf;
    if t + c >= head {
      u := t + c;
    } else {
      u := SlotInRound(c, t + c, head);
    }
  }

  // A push passes its check exactly when the slot is free for its ticket or, its ticket being already taken,
  // still being written by the thread that took it.
  lemma PushRefusedExactly(q: Queue, i: nat)
    requires Inv(q) && i < |q.pcs| && q.pcs[i].PushLoaded?
    ensures CanAdvance(q, i) && q.pcs[i].tail <= q.tail
    ensures var t := q.pcs[i].tail;
            var owner := q.owner[SlotOf(q.capacity, t)];
            Advance(q, i).pcs[i] == Idle <==>
            if t == q.tail then
              |Contents(q)| == q.capacity || (t >= q.capacity && Reading(q, owner, t - q.capacity))
            else !(q.head <= t && Writing(q, owner, t))
  {
    assert PcOk(q, i);
    var t := q.pcs[i].tail;
    SlotsRecur(q.capacity, q.head);
    if t < q.head {
      var u := SlotInRound(q.capacity, t, q.head);
      assert if u < q.tail then LiveOk(q, u) else FreeOk(q, u);
    }
    hide SlotOf;
    assert q.head <= t < q.tail ==> LiveOk(q, t);
    assert t == q.tail < q.head + q.capacity ==> FreeOk(q, t);
    assert q.head < q.tail ==> LiveOk(q, q.head);
  }

  // A pop passes its check exactly when the slot is filled with its ticket or, its ticket being already taken,
  // still being read by the thread that took it.
  lemma PopRefusedExactly(q: Queue, i: nat)
    requires Inv(q) && i < |q.pcs| && q.pcs[i].PopLoaded?
    ensures CanAdvance(q, i) && q.pcs[i].head <= q.head
    ensures var h := q.pcs[i].head;
            var owner := q.owner[SlotOf(q.capacity, h)];
            Advance(q, i).pcs[i] == Idle <==>
            if h == q.head then Contents(q) == [] || Writing(q, owner, h)
            else !Reading(q, owner, h)
  {
    assert PcOk(q, i);
    var h := q.pcs[i].head;
    if h < q.head {
      var u := SlotInRound(q.capacity, h, q.head);
      assert if u < q.tail then LiveOk(q, u) else FreeOk(q, u);
      var owner := q.owner[SlotOf(q.capacity, h)];
      assert Reading(q, owner, h) ==> PcOk(q, owner);
    }
    hide SlotOf;
    assert q.head == q.tail ==> FreeOk(q, q.head);
    assert q.head < q.tail ==> LiveOk(q, q.head);
  }

  // Past the check, a call is refused exactly when another thread took the ticket in between.
  lemma SwapRefusedExactly(q: Queue, i: nat)
    requires Inv(q) && i < |q.pcs| && (q.pcs[i].PushChecked? || q.pcs[i].PopChecked?)
    ensures CanAdvance(q, i)
    ensures q.pcs[i].PushChecked? ==> (Advance(q, i).pcs[i] == Idle <==> q.pcs[i].tail < q.tail)
    ensures q.pcs[i].PopChecked? ==> (Advance(q, i).pcs[i] == Idle <==> q.pcs[i].head < q.head)
  {
    hide SlotOf;
    assert PcOk(q, i);
  }

  /* ---- Without interference ---- */

  predicate Quiescent(q: Queue) {
    forall i :: 0 <= i < |q.pcs| ==> q.pcs[i] == Idle
  }

  function StepsLeft(width: nat, pc: Pc): nat {
    match pc
    case Idle => 0
    case PushLoaded(_, _) => width + 3
    case PushChecked(_, _) => width + 2
    case PushCopying(_, _, k) => if k < width then width + 1 - k else 1
    case PopLoaded(_) => width + 3
    case PopChecked(_) => width + 2
    case PopCopying(_, got) => if |got| < width then width + 1 - |got| else 1
  }

  lemma InCallAdvances(q: Queue, i: nat)
    requires Inv(q) && i < |q.pcs| && q.pcs[i] != Idle
    ensures CanAdvance(q, i) && Inv(Advance(q, i))
    ensures StepsLeft(q.width, Advance(q, i).pcs[i]) < StepsLeft(q.width, q.pcs[i])
    ensures Advance(q, i).width == q.width && |Advance(q, i).pcs| == |q.pcs|
  {
    hide SlotOf;
    assert PcOk(q, i);
    StepKeepsInv(q, i, Continue);
  }

  // Thread i runs its call to the end while the others rest.
  ghost function Finish(q: Queue, i: nat): (q': Queue)
    requires Inv(q) && i < |q.pcs|
    ensures Inv(q')
    decreases StepsLeft(q.width, q.pcs[i])
  {
    if q.pcs[i] == Idle then q
    else
      InCallAdvances(q, i);
      Finish(Advance(q, i), i)
  }

  lemma {:induction false} FinishCopyIn(q: Queue, i: nat)
    requires Inv(q) && i < |q.pcs| && q.pcs[i].PushCopying?
    ensures var q' := Finish(q, i);
            q'.head == q.head && q'.tail == q.tail && q'.pushed == q.pushed && q'.returned == q.returned
            && q'.pcs == q.pcs[i := Idle] && q'.capacity == q.capacity && q'.width == q.width
    decreases StepsLeft(q.width, q.pcs[i])
  {
    InCallAdvances(q, i);
    assert PcOk(q, i);
    hide SlotOf, Inv;
    if q.pcs[i].done < q.width {
      FinishCopyIn(Advance(q, i), i);
    }
  }

  lemma {:induction false} FinishCopyOut(q: Queue, i: nat)
    requires Inv(q) && i < |q.pcs| && q.pcs[i].PopCopying?
    ensures q.pcs[i].head < |q.pushed|
    ensures var q' := Finish(q, i);
            var h := q.pcs[i].head;
            q'.head == q.head && q'.tail == q.tail && q'.pushed == q.pushed
            && q'.returned == q.returned[h := q.pushed[h]]
            && q'.pcs == q.pcs[i := Idle] && q'.capacity == q.capacity && q'.width == q.width
    decreases StepsLeft(q.width, q.pcs[i])
  {
    InCallAdvances(q, i);
    assert PcOk(q, i);
    StepKeepsHistory(q, i, Continue);
    hide SlotOf, Inv;
    if |q.pcs[i].got| < q.width {
      FinishCopyOut(Advance(q, i), i);
    } else {
      var q1 := Advance(q, i);
      var h := q.pcs[i].head;
      assert q1.returned == q.returned[h := q.pcs[i].got];
      assert h in q1.returned && h !in q.returned;
    }
  }

  lemma FinishUnfolds(q: Queue, i: nat)
    requires Inv(q) && i < |q.pcs| && q.pcs[i] != Idle
    ensures CanAdvance(q, i) && Inv(Advance(q, i)) && |Advance(q, i).pcs| == |q.pcs|
    ensures Finish(q, i) == Finish(Advance(q, i), i)
  {
    InCallAdvances(q, i);
  }

  // The slot the next push needs is not given back yet: the pop of one round earlier still reads it.
  predicate TailStillRead(q: Queue)
    requires Shape(q)
  {
    q.tail >= q.capacity && Reading(q, q.owner[SlotOf(q.capacity, q.tail)], q.tail - q.capacity)
  }

  // The item the next pop needs is not there yet: the push of its ticket still writes it.
  predicate HeadStillWritten(q: Queue)
    requires Shape(q)
  {
    Writing(q, q.owner[SlotOf(q.capacity, q.head)], q.head)
  }

  // The ticket just loaded, thread i passes its check or leaves, whatever the others are in the middle of.
  lemma FreshCheck(q: Queue, i: nat, v: Value)
    requires Inv(q) && i < |q.pcs| && q.pcs[i] == PushLoaded(v, q.tail)
    ensures CanAdvance(q, i)
    ensures var refused := |Contents(q)| == q.capacity || TailStillRead(q);
            Advance(q, i) == q.(pcs := q.pcs[i := if refused then Idle else PushChecked(v, q.tail)])
  {
    PushRefusedExactly(q, i);
    hide SlotOf, Inv;
  }

  // From the passed check to the end, if nobody else takes the ticket.
  lemma FinishChecked(q: Queue, i: nat, v: Value)
    requires Inv(q) && i < |q.pcs| && q.pcs[i] == PushChecked(v, q.tail)
    ensures var q' := Finish(q, i);
            && q'.head <= q'.tail == |q'.pushed| && Contents(q') == Contents(q) + [v]
            && q'.head == q.head && q'.returned == q.returned && q'.pcs == q.pcs[i := Idle]
  {
    FinishUnfolds(q, i);
    hide SlotOf, Inv;
    FinishCopyIn(Advance(q, i), i);
  }

  // The other threads paused wherever they are, a push by an idle thread changes nothing exactly when capacity items
  // are held or the slot at the tail is still being read; otherwise it appends.
  lemma LonePush(q: Queue, i: nat, v: Value)
    requires Inv(q) && i < |q.pcs| && q.pcs[i] == Idle && |v| == q.width
    ensures Enabled(q, i, CallPush(v)) && Inv(Step(q, i, CallPush(v)))
    ensures Step(q, i, CallPush(v)).pcs[i] == PushLoaded(v, q.tail)
    ensures var q' := Finish(Step(q, i, CallPush(v)), i);
            if |Contents(q)| == q.capacity || TailStillRead(q) then q' == q
            else
              && q'.head <= q'.tail == |q'.pushed| && Contents(q') == Contents(q) + [v]
              && q'.head == q.head && q'.returned == q.returned && q'.pcs == q.pcs
  {
    StepKeepsInv(q, i, CallPush(v));
    var q1 := StartPush(q, i, v);
    FinishUnfolds(q1, i);
    assert TailStillRead(q1) == TailStillRead(q);
    FreshCheck(q1, i, v);
    hide SlotOf, Inv, TailStillRead, Advance, CanAdvance;
    var q2 := Advance(q1, i);
    assert q1.pcs[i := Idle] == q1.pcs[i := PushChecked(v, q.tail)][i := Idle] == q.pcs;
    if |Contents(q)| == q.capacity || TailStillRead(q) {
      assert q2 == q;
    } else {
      FinishChecked(q2, i, v);
    }
  }

  // The same for a pop: nothing changes exactly when nothing is held or the item at the head is still being written;
  // otherwise the oldest item is removed and returned.
  lemma LonePop(q: Queue, i: nat)
    requires Inv(q) && i < |q.pcs| && q.pcs[i] == Idle
    ensures Enabled(q, i, CallPop) && Inv(Step(q, i, CallPop))
    ensures Step(q, i, CallPop).pcs[i] == PopLoaded(q.head)
    ensures var q' := Finish(Step(q, i, CallPop), i);
            if Contents(q) == [] || HeadStillWritten(q) then q' == q
            else
              && q'.head <= q'.tail == |q'.pushed| && Contents(q') == Contents(q)[1..]
              && q'.returned == q.returned[q.head := Contents(q)[0]]
              && q'.pushed == q.pushed && q'.pcs == q.pcs
  {
    StepKeepsInv(q, i, CallPop);
    var q1 := StartPop(q, i);
    PopRefusedExactly(q1, i);
    FinishUnfolds(q1, i);
    assert HeadStillWritten(q1) == HeadStillWritten(q);
    hide SlotOf, Inv;
    var q2 := Advance(q1, i);
    if q2.pcs[i] == Idle {
      assert q2.pcs == q.pcs;
    } else {
      FinishUnfolds(q2, i);
      var q3 := Advance(q2, i);
      FinishCopyOut(q3, i);
      assert q3.pcs[i := Idle] == q.pcs;
    }
  }

  // Alone, a push fails exactly when capacity items are held, and otherwise appends.
  lemma SoloPush(q: Queue, i: nat, v: Value)
    requires Inv(q) && Quiescent(q) && i < |q.pcs| && |v| == q.width
    ensures Inv(StartPush(q, i, v))
    ensures var q' := Finish(StartPush(q, i, v), i);
            && q'.head <= q'.tail == |q'.pushed| && Quiescent(q')
            && (if |Contents(q)| < q.capacity then Contents(q') == Contents(q) + [v] else q' == q)
  {
    LonePush(q, i, v);
    hide Finish, SlotOf;
  }

  // Alone, a pop fails exactly when nothing is held, and otherwise removes and returns the oldest item.
  lemma SoloPop(q: Queue, i: nat)
    requires Inv(q) && Quiescent(q) && i < |q.pcs|
    ensures Inv(StartPop(q, i))
    ensures var q' := Finish(StartPop(q, i), i);
            && q'.head <= q'.tail == |q'.pushed| && Quiescent(q')
            && (if Contents(q) == [] then q' == q
                else Contents(q') == Contents(q)[1..] && q'.returned == q.returned[q.head := Contents(q)[0]])
  {
    LonePop(q, i);
    hide Finish, SlotOf;
  }

  /* ---- A single slot is not enough ---- */

  ghost predicate NeverOverfull(capacity: nat) {
    forall run: seq<Queue>, k: nat ::
      IsRun(run) && run[0].capacity == capacity && k < |run| ==> run[k].tail <= run[k].head + capacity
  }

  // With one slot the version "filled with ticket t" is the version "free for ticket t + 1".
  function OneSlot(tail: nat, word: Word, version: nat, pc: Pc, pushed: seq<Value>, owner: int): Queue {
    Queue(1, 1, 0, tail, [Slot([word], version)], [pc], pushed, map[], [owner])
  }

  function OneSlotState(k: nat): Queue {
    match k
    case 0 => OneSlot(0, 0, 0, Idle, [], -1)
    case 1 => OneSlot(0, 0, 0, PushLoaded([7], 0), [], -1)
    case 2 => OneSlot(0, 0, 0, PushChecked([7], 0), [], -1)
    case 3 => OneSlot(1, 0, 0, PushCopying([7], 0, 0), [[7]], 0)
    case 4 => OneSlot(1, 7, 0, PushCopying([7], 0, 1), [[7]], 0)
    case 5 => OneSlot(1, 7, 1, Idle, [[7]], -1)
    case 6 => OneSlot(1, 7, 1, PushLoaded([8], 1), [[7]], -1)
    case 7 => OneSlot(1, 7, 1, PushChecked([8], 1), [[7]], -1)
    case 8 => OneSlot(2, 7, 1, PushCopying([8], 1, 0), [[7], [8]], 0)
    case 9 => OneSlot(2, 8, 1, PushCopying([8], 1, 1), [[7], [8]], 0)
    case _ => OneSlot(2, 8, 2, Idle, [[7], [8]], -1)
  }

  function OneSlotAction(k: nat): Action {
    if k == 0 then CallPush([7]) else if k == 5 then CallPush([8]) else Continue
  }

  function OneSlotRun(): seq<Queue> {
    seq(11, k requires 0 <= k < 11 => OneSlotState(k))
  }

  lemma OnlySlot(t: nat)
    ensures SlotOf(1, t) == 0
  {
  }

  lemma OneSlotFirstPush(k: nat)
    requires k < 5
    ensures Enabled(OneSlotState(k), 0, OneSlotAction(k))
    ensures Step(OneSlotState(k), 0, OneSlotAction(k)) == OneSlotState(k + 1)
  {
    OnlySlot(0);
    OnlySlot(1);
    hide SlotOf;
    assert forall x: Pc, y: Pc :: [x][0 := y] == [y];
    assert forall x: Slot, y: Slot :: [x][0 := y] == [y];
    assert forall x: int, y: int :: [x][0 := y] == [y];
    assert [] + [[7]] == [[7]] && [[7]] + [[8]] == [[7], [8]];
  }

  lemma OneSlotSecondPush(k: nat)
    requires 5 <= k < 10
    ensures Enabled(OneSlotState(k), 0, OneSlotAction(k))
    ensures Step(OneSlotState(k), 0, OneSlotAction(k)) == OneSlotState(k + 1)
  {
    OnlySlot(0);
    OnlySlot(1);
    hide SlotOf;
    assert forall x: Pc, y: Pc :: [x][0 := y] == [y];
    assert forall x: Slot, y: Slot :: [x][0 := y] == [y];
    assert forall x: int, y: int :: [x][0 := y] == [y];
    assert [] + [[7]] == [[7]] && [[7]] + [[8]] == [[7], [8]];
  }

  lemma OneSlotIsRun()
    ensures IsRun(OneSlotRun())
  {
    forall k | 0 <= k < 10
      ensures Next(OneSlotState(k), OneSlotState(k + 1))
    {
      if k < 5 {
        OneSlotFirstPush(k);
      } else {
        OneSlotSecondPush(k);
      }
    }
  }

  // Two pushes succeed on one slot; the first item is overwritten, and the pop of its ticket is refused.
  lemma OneSlotLosesItem()
    ensures IsRun(OneSlotRun()) && |OneSlotRun()| == 11
    ensures var q := OneSlotRun()[10];
            && q.capacity == 1 && Quiescent(q) && q.returned == map[]
            && Contents(q) == [[7], [8]] && q.slots[0].words == [8]
            && CheckPop(StartPop(q, 0), 0, 0).pcs[0] == Idle
  {
    OneSlotIsRun();
  }

  // The bound of the queue holds in every run exactly from two slots on.
  lemma NeverOverfullIff(capacity: nat)
    requires capacity >= 1
    ensures NeverOverfull(capacity) <==> capacity >= 2
  {
    if capacity == 1 {
      OneSlotLosesItem();
      var run := OneSlotRun();
      assert run[10].tail > run[10].head + 1;
    } else {
      forall run: seq<Queue>, k: nat | IsRun(run) && run[0].capacity == capacity && k < |run|
        ensures run[k].tail <= run[k].head + capacity
      {
        RunInv(run, k);
      }
    }
  }
}
