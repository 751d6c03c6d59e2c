/** The event loop of `Thread`: choose the earliest deadline, wait for it, request that timer.

    `run` on Linux waits on its pipe; `loop` on Arduino serves its work queue instead of
    waiting and requests a timer only once its deadline is strictly past. */
module EventLoop {
  import opened Timers

  const HORIZON: nat := 5000
  const INT32_HALF: nat := 0x8000_0000
  const UINT32: nat := 0x1_0000_0000

  /* ---- The choice ---- */

  // timer is the index of the chosen timer, or -1.
  datatype Choice = Choice(expTime: nat, timer: int)

  function Consider(c: Choice, t: Timer, i: nat): Choice {
    if t.expireTime < c.expTime then Choice(t.expireTime, i) else c
  }

  function Choose(ts: seq<Timer>, now: nat): Choice {
    if ts == [] then Choice(now + HORIZON, -1)
    else Consider(Choose(ts[..|ts| - 1], now), ts[|ts| - 1], |ts| - 1)
  }

  // The loop finds the first of the timers with the least deadline, provided that deadline lies within the horizon.
  lemma {:induction false} ChooseIsEarliest(ts: seq<Timer>, now: nat)
    ensures var c := Choose(ts, now);
            && -1 <= c.timer < |ts|
            && (forall i :: 0 <= i < |ts| ==> c.expTime <= ts[i].expireTime)
            && (if c.timer < 0 then c.expTime == now + HORIZON
                else c.expTime == ts[c.timer].expireTime < now + HORIZON)
            && (forall i :: 0 <= i < c.timer ==> c.expTime < ts[i].expireTime)
  {
    if ts != [] {
      ChooseIsEarliest(ts[..|ts| - 1], now);
    }
  }

  // The wait is the difference truncated to a signed 32-bit number.
  function AsInt32(x: int): int {
    var w := x % UINT32;
    if w < INT32_HALF then w else w - UINT32
  }

  // Truncation keeps the sign of the wait exactly when the lateness, reduced to 32 bits, is at most 2^31 ms.
  lemma WaitSign(expTime: nat, now: nat)
    requires expTime <= now + HORIZON
    ensures (AsInt32(expTime - now) > 0 <==> expTime > now)
            <==> expTime > now || (now - expTime) % UINT32 <= INT32_HALF
  {
  }

  // Is the deadline taken for one in the future?  Rightly if it is, wrongly if it is very late.
  predicate TakenForFuture(deadline: nat, now: nat) {
    deadline > now || (now - deadline) % UINT32 > INT32_HALF
  }

  // A timer 2^31 + 1 ms late is taken for one in the future.
  lemma VeryLateTimerWaits()
    ensures AsInt32(0 - (INT32_HALF + 1)) > 0
  {
  }

  /* ---- One turn of the loop ---- */

  datatype Platform = Linux | Arduino

  // Clock readings of one turn: at the top, before the request, at the request's guard, at the new deadline.
  datatype Reading = Reading(now: nat, ready: nat, due: nat, set_: nat, timedOut: bool)

  predicate Ordered(r: Reading) {
    r.now <= r.ready <= r.due <= r.set_
  }

  // Does the turn request the chosen timer?
  predicate Requests(p: Platform, c: Choice, r: Reading) {
    && c.timer >= 0
    && if AsInt32(c.expTime - r.now) > 0 then p.Linux? && r.timedOut
       else p.Linux? || c.expTime < r.ready
  }

  datatype Outcome = Outcome(timers: seq<Timer>, fired: int)

  function Turn(p: Platform, ts: seq<Timer>, r: Reading): Outcome {
    var c := Choose(ts, r.now);
    ChooseIsEarliest(ts, r.now);
    if Requests(p, c, r) then
      Outcome(ts[c.timer := Requested(ts[c.timer], r.due, r.set_)],
              if r.due >= ts[c.timer].expireTime then c.timer else -1)
    else Outcome(ts, -1)
  }

  predicate FirstEarliest(ts: seq<Timer>, a: nat) {
    && a < |ts|
    && (forall i :: 0 <= i < |ts| ==> ts[a].expireTime <= ts[i].expireTime)
    && (forall i :: 0 <= i < a ==> ts[a].expireTime < ts[i].expireTime)
  }

  // The turn gets round to a timer with this deadline and finds it due.
  predicate Serves(p: Platform, deadline: nat, r: Reading) {
    && deadline <= r.due && deadline < r.now + HORIZON
    && if TakenForFuture(deadline, r.now) then p.Linux? && r.timedOut
       else p.Linux? || deadline < r.ready
  }

  // A turn fires the first timer with the least deadline if it serves that deadline, and touches no other timer.
  lemma TurnFiresExactly(p: Platform, ts: seq<Timer>, r: Reading, a: nat)
    ensures var turn := Turn(p, ts, r);
            && -1 <= turn.fired < |ts|
            && (turn.fired == a <==> FirstEarliest(ts, a) && Serves(p, ts[a].expireTime, r))
            && turn.timers == if turn.fired < 0 then ts else ts[turn.fired := Fired(ts[turn.fired], r.set_)]
  {
    ChooseIsEarliest(ts, r.now);
    var c := Choose(ts, r.now);
    WaitSign(c.expTime, r.now);
    hide Choose, AsInt32, Fired;
    assert c.timer >= 0 ==> ts == ts[c.timer := ts[c.timer]];
  }

  // A turn at which the least deadline is between 2^31 and 2^32 ms late fires nothing; on Linux, unless it first
  // waits in vain.
  lemma VeryLateTimerNotFired(p: Platform, ts: seq<Timer>, r: Reading, a: nat)
    requires FirstEarliest(ts, a) && INT32_HALF < r.now - ts[a].expireTime < UINT32
    requires p.Arduino? || !r.timedOut
    ensures Turn(p, ts, r) == Outcome(ts, -1)
  {
    var b := Turn(p, ts, r).fired;
    TurnFiresExactly(p, ts, r, if b < 0 then 0 else b);
  }

  class Thread {
    var timers: seq<TimerSource>

    ghost predicate Valid()
      reads this
    {
      forall i, j :: 0 <= i < j < |timers| ==> timers[i] != timers[j]
    }

    ghost function States(): (s: seq<Timer>)
      reads this, timers
      ensures |s| == |timers|
    {
      seq(|timers|, i requires 0 <= i < |timers| reads this, timers => timers[i].State())
    }

    constructor ()
      ensures Valid() && timers == []
    {
      timers := [];
    }

    // A timer added twice would be scanned twice; Valid() then no longer holds.
    method AddTimer(t: TimerSource)
      modifies this
      ensures timers == old(timers) + [t]
      ensures old(Valid()) && t !in old(timers) ==> Valid()
    {
      timers := timers + [t];
    }

    method FindExpiring(now: nat) returns (expTime: nat, timer: int)
      requires Valid()
      ensures Choice(expTime, timer) == Choose(States(), now)
    {
      expTime := now + HORIZON;
      timer := -1;
      for i := 0 to |timers|
        invariant Choice(expTime, timer) == Choose(States()[..i], now)
      {
        assert States()[..i + 1][..i] == States()[..i];
        if timers[i].expireTime < expTime {
          expTime := timers[i].expireTime;
          timer := i;
        }
      }
      assert States()[..|timers|] == States();
    }

    method Request(i: nat, due: nat, now: nat) returns (fired: bool)
      requires Valid() && i < |timers| && due <= now
      modifies timers
      ensures timers == old(timers)
      ensures fired == (due >= old(timers[i].expireTime))
      ensures States() == old(States())[i := Requested(old(States())[i], due, now)]
    {
      fired := timers[i].Request(due, now);
    }

    // One turn of run() on Linux or of loop() on Arduino; fired is the timer whose subscribers are called, or -1.
    method RunOnce(p: Platform, r: Reading) returns (fired: int)
      requires Valid() && Ordered(r)
      modifies timers
      ensures timers == old(timers)
      ensures Outcome(States(), fired) == Turn(p, old(States()), r)
    {
      fired := -1;
      var expTime, timer := FindExpiring(r.now);
      ChooseIsEarliest(States(), r.now);
      var waitTime := AsInt32(expTime - r.now);
      if waitTime > 0 {
        if p.Linux? && r.timedOut && timer >= 0 {
          var called := Request(timer, r.due, r.set_);
          fired := if called then timer else -1;
        }
      } else if timer >= 0 {
        if p.Linux? || timers[timer].expireTime < r.ready {
          var called := Request(timer, r.due, r.set_);
          fired := if called then timer else -1;
        }
      }
    }
  }

  /* ---- No timer starves ---- */

  datatype LoopState = LoopState(timers: seq<Timer>, clock: nat)

  // What handlers run during a turn may do to a timer: leave its deadline, or move it past the present.
  predicate Touched(before: Timer, after: Timer, now: nat) {
    after.interval >= 1 && (after.expireTime == before.expireTime || after.expireTime > now)
  }

  predicate Iteration(p: Platform, s: LoopState, r: Reading, fired: int, s': LoopState) {
    && Ordered(r) && s.clock <= r.now && r.set_ <= s'.clock
    && (forall j :: 0 <= j < |s.timers| ==> s.timers[j].interval >= 1 && r.now <= s.timers[j].expireTime + INT32_HALF)
    && var turn := Turn(p, s.timers, r);
       && fired == turn.fired && |turn.timers| == |s.timers| == |s'.timers|
       && (forall j :: 0 <= j < |s.timers| ==> Touched(turn.timers[j], s'.timers[j], r.now))
  }

  // A turn serves such a timer if it is the chosen one.
  predicate Ripe(p: Platform, deadline: nat, clock: nat) {
    if p.Linux? then deadline <= clock else deadline < clock
  }

  predicate LoopRun(p: Platform, states: seq<LoopState>, readings: seq<Reading>, fired: seq<int>) {
    && |states| == |readings| + 1 == |fired| + 1
    && (forall k :: 0 <= k < |fired| ==> Iteration(p, states[k], readings[k], fired[k], states[k + 1]))
  }

  // How often a timer may still fire before one with deadline d.
  function Weight(t: Timer, d: nat): nat {
    if t.expireTime < d then 2 else if t.expireTime == d then 1 else 0
  }

  function TotalWeight(ts: seq<Timer>, d: nat): nat {
    if ts == [] then 0 else TotalWeight(ts[..|ts| - 1], d) + Weight(ts[|ts| - 1], d)
  }

  lemma {:induction false} WeightsShrink(ts: seq<Timer>, ts': seq<Timer>, d: nat, b: nat)
    requires |ts| == |ts'| && b < |ts|
    requires forall j :: 0 <= j < |ts| ==> Weight(ts'[j], d) <= Weight(ts[j], d)
    requires Weight(ts'[b], d) < Weight(ts[b], d)
    ensures TotalWeight(ts', d) < TotalWeight(ts, d)
  {
    var n := |ts| - 1;
    if b < n {
      WeightsShrink(ts[..n], ts'[..n], d, b);
    } else {
      WeightsNotGrow(ts[..n], ts'[..n], d);
    }
  }

  lemma {:induction false} WeightsNotGrow(ts: seq<Timer>, ts': seq<Timer>, d: nat)
    requires |ts| == |ts'|
    requires forall j :: 0 <= j < |ts| ==> Weight(ts'[j], d) <= Weight(ts[j], d)
    ensures TotalWeight(ts', d) <= TotalWeight(ts, d)
  {
    if ts != [] {
      WeightsNotGrow(ts[..|ts| - 1], ts'[..|ts| - 1], d);
    }
  }

  // A timer that fires while one with deadline d is ripe can do so only twice.
  lemma FiringSpendsWeight(t: Timer, d: nat, due: nat, now: nat)
    requires t.interval >= 1 && t.expireTime <= d <= due <= now
    ensures due >= t.expireTime && Weight(Fired(t, now), d) < Weight(t, d)
  {
  }

  // While timer a is ripe, each turn fires a timer whose deadline is not later than a's.
  lemma RipeTurnFires(p: Platform, s: LoopState, r: Reading, fired: int, s': LoopState, a: nat)
    requires Iteration(p, s, r, fired, s') && a < |s.timers|
    requires Ripe(p, s.timers[a].expireTime, s.clock)
    ensures 0 <= fired < |s.timers| && s.timers[fired].expireTime <= s.timers[a].expireTime
    ensures Turn(p, s.timers, r).timers == s.timers[fired := Fired(s.timers[fired], r.set_)]
  {
    ChooseIsEarliest(s.timers, r.now);
    var c := Choose(s.timers, r.now);
    WaitSign(c.expTime, r.now);
    LatenessInRange(c, s, r);
    hide AsInt32, Choose;
  }

  lemma LatenessInRange(c: Choice, s: LoopState, r: Reading)
    requires c.timer >= 0 && c.timer < |s.timers| && c.expTime == s.timers[c.timer].expireTime <= r.now
    requires r.now <= s.timers[c.timer].expireTime + INT32_HALF
    ensures (r.now - c.expTime) % UINT32 <= INT32_HALF
  {
  }

  lemma TurnSpendsWeight(p: Platform, s: LoopState, r: Reading, fired: int, s': LoopState, a: nat)
    requires Iteration(p, s, r, fired, s') && a < |s.timers| && fired != a
    requires Ripe(p, s.timers[a].expireTime, s.clock)
    ensures 0 <= fired < |s.timers| == |s'.timers|
    ensures var d := s.timers[a].expireTime;
            && (forall j :: 0 <= j < |s.timers| ==> Weight(s'.timers[j], d) <= Weight(s.timers[j], d))
            && Weight(s'.timers[fired], d) < Weight(s.timers[fired], d)
            && TotalWeight(s'.timers, d) < TotalWeight(s.timers, d)
  {
    RipeTurnFires(p, s, r, fired, s', a);
    var d := s.timers[a].expireTime;
    FiringSpendsWeight(s.timers[fired], d, r.due, r.set_);
    hide Turn;
    WeightsShrink(s.timers, s'.timers, d, fired);
  }

  function Firings(fired: seq<int>, b: int): nat {
    if fired == [] then 0
    else Firings(fired[..|fired| - 1], b) + (if fired[|fired| - 1] == b then 1 else 0)
  }

  // Timer a keeps its deadline and is not fired in the first n turns.
  predicate Waits(states: seq<LoopState>, fired: seq<int>, a: nat, n: nat) {
    && n <= |fired| < |states| && a < |states[0].timers|
    && (forall k :: 0 <= k <= n ==>
          a < |states[k].timers| && states[k].timers[a].expireTime == states[0].timers[a].expireTime)
    && (forall k :: 0 <= k < n ==> fired[k] != a)
  }

  lemma {:induction false} WaitingSpends(
    p: Platform, states: seq<LoopState>, readings: seq<Reading>, fired: seq<int>, a: nat, n: nat)
    requires LoopRun(p, states, readings, fired) && Waits(states, fired, a, n)
    requires Ripe(p, states[0].timers[a].expireTime, states[0].clock)
    ensures states[0].clock <= states[n].clock && |states[n].timers| == |states[0].timers|
    ensures var d := states[0].timers[a].expireTime;
            && TotalWeight(states[n].timers, d) + n <= TotalWeight(states[0].timers, d)
            && (forall b :: 0 <= b < |states[0].timers| ==>
                  Weight(states[n].timers[b], d) + Firings(fired[..n], b) <= Weight(states[0].timers[b], d))
  {
    if n > 0 {
      hide Iteration, Weight, TotalWeight;
      WaitingSpends(p, states, readings, fired, a, n - 1);
      assert Iteration(p, states[n - 1], readings[n - 1], fired[n - 1], states[n]);
      ClockAdvances(p, states[n - 1], readings[n - 1], fired[n - 1], states[n]);
      TurnSpendsWeight(p, states[n - 1], readings[n - 1], fired[n - 1], states[n], a);
      assert fired[..n][..n - 1] == fired[..n - 1];
    }
  }

  lemma ClockAdvances(p: Platform, s: LoopState, r: Reading, fired: int, s': LoopState)
    requires Iteration(p, s, r, fired, s')
    ensures s.clock <= s'.clock
  {
  }

  lemma {:induction false} TotalWeightBound(ts: seq<Timer>, d: nat)
    ensures TotalWeight(ts, d) <= 2 * |ts|
  {
    if ts != [] {
      TotalWeightBound(ts[..|ts| - 1], d);
    }
  }

  lemma {:induction false} OwnWeight(ts: seq<Timer>, a: nat, d: nat)
    requires a < |ts| && ts[a].expireTime == d
    ensures 1 <= TotalWeight(ts, d) <= 2 * |ts| - 1
  {
    var n := |ts| - 1;
    if a < n {
      OwnWeight(ts[..n], a, d);
    } else {
      TotalWeightBound(ts[..n], d);
    }
  }

  // As long as a ripe timer waits, every other timer fires at most twice, and so it waits at most 2(n - 1) turns.
  lemma NoStarvation(p: Platform, states: seq<LoopState>, readings: seq<Reading>, fired: seq<int>, a: nat)
    requires LoopRun(p, states, readings, fired) && Waits(states, fired, a, |fired|)
    requires Ripe(p, states[0].timers[a].expireTime, states[0].clock)
    ensures |fired| <= 2 * (|states[0].timers| - 1)
    ensures forall b :: 0 <= b < |states[0].timers| ==> Firings(fired, b) <= 2
  {
    var n := |fired|;
    WaitingSpends(p, states, readings, fired, a, n);
    assert fired[..n] == fired;
    var d := states[0].timers[a].expireTime;
    OwnWeight(states[0].timers, a, d);
    OwnWeight(states[n].timers, a, d);
    hide LoopRun, TotalWeight;
  }
}
