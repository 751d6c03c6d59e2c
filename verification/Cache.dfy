/** `Cache`: values pass at once when the last emission is long enough ago, otherwise at
    the next tick of the cache's own timer; a tick also repeats an old value. */
module CacheFlow {
  import opened Millis
  import opened Timers

  // Clock readings stay in the lower half of the 64-bit range.
  const LATEST: nat := 0x8000_0000_0000_0000

  datatype Kind = ByValue | ByTick | ByRequest

  // seen is how many inputs had arrived when this was emitted.
  datatype Emission<T> = Emission(kind: Kind, time: nat, value: T, seen: nat)

  // inputs and log are history: what arrived and what was emitted.
  datatype State<T> = State(
    unsent: bool, lastSend: nat, value: T, timer: Timer, inputs: seq<T>, log: seq<Emission<T>>)

  datatype Limits = Limits(minimum: nat, maximum: nat) {
    predicate Valid() {
      minimum <= MAX_INTERVAL && maximum <= MAX_INTERVAL
    }
  }

  function Emit<T>(s: State<T>, kind: Kind, now: nat): State<T> {
    s.(log := s.log + [Emission(kind, now, s.value, |s.inputs|)])
  }

  function Sent<T>(s: State<T>, kind: Kind, now: nat): State<T> {
    Emit(s, kind, now).(unsent := false, lastSend := now)
  }

  function OnInput<T>(l: Limits, s: State<T>, v: T, now: nat): State<T> {
    var s1 := s.(value := v, unsent := true, inputs := s.inputs + [v]);
    if Plus64(s.lastSend, l.minimum) < now then Sent(s1, ByValue, now) else s1
  }

  function OnTick<T>(l: Limits, s: State<T>, now: nat, reset: nat): State<T> {
    var s1 := if s.unsent then Sent(s, ByTick, now) else s;
    var s2 := if now > Plus64(s1.lastSend, l.maximum) then Sent(s1, ByTick, now) else s1;
    s2.(timer := Started(s2.timer, reset))
  }

  // The loop requests the timer: due and set_ are the timer's own readings, now and reset the handler's.
  datatype Event<T> = Input(value: T, now: nat) | Poll(due: nat, set_: nat, now: nat, reset: nat) | Ask(now: nat)

  function OnEvent<T>(l: Limits, s: State<T>, e: Event<T>): State<T> {
    match e
    case Input(v, now) => OnInput(l, s, v, now)
    case Ask(now) => Emit(s, ByRequest, now)
    case Poll(due, set_, now, reset) =>
      if due < s.timer.expireTime then s else OnTick(l, s.(timer := Fired(s.timer, set_)), now, reset)
  }

  function Run<T>(l: Limits, s: State<T>, events: seq<Event<T>>): State<T> {
    if events == [] then s else OnEvent(l, Run(l, s, events[..|events| - 1]), events[|events| - 1])
  }

  function EndOf<T>(e: Event<T>): nat {
    match e
    case Input(_, now) => now
    case Ask(now) => now
    case Poll(_, _, _, reset) => reset
  }

  function Clock<T>(start: nat, events: seq<Event<T>>): nat {
    if events == [] then start else EndOf(events[|events| - 1])
  }

  predicate Follows<T>(clock: nat, e: Event<T>) {
    && EndOf(e) < LATEST
    && match e
       case Input(_, now) => clock <= now
       case Ask(now) => clock <= now
       case Poll(due, set_, now, reset) => clock <= due <= set_ <= now <= reset
  }

  predicate Monotone<T>(start: nat, events: seq<Event<T>>) {
    events == []
    || (Monotone(start, events[..|events| - 1])
        && Follows(Clock(start, events[..|events| - 1]), events[|events| - 1]))
  }

  // Constructed at start: the one-shot timer runs for the minimum; lastSend and the value are whatever they are.
  predicate Fresh<T>(l: Limits, s: State<T>, start: nat) {
    && !s.unsent && s.timer == Timer(l.minimum, false, start + l.minimum)
    && s.inputs == [] && s.log == [] && start < LATEST
  }

  /** The object. */
  class Cache<T> {
    const limits: Limits
    var unsent: bool
    var lastSend: nat
    var value: T
    const timer: TimerSource
    ghost var inputs: seq<T>
    ghost var log: seq<Emission<T>>

    ghost function Abs(): State<T>
      reads this, timer
    {
      State(unsent, lastSend, value, timer.State(), inputs, log)
    }

    constructor (limits: Limits, start: nat, garbage: nat, initial: T)
      requires start < LATEST
      ensures Fresh(limits, Abs(), start) && fresh(timer) && this.limits == limits
    {
      this.limits := limits;
      unsent, lastSend, value := false, garbage, initial;
      inputs, log := [], [];
      var ts := new TimerSource(MAX_INTERVAL, false, start);
      timer := ts;
      new;
      timer.interval := limits.minimum;
      timer.Start(start);
    }

    method Publish(kind: Kind, now: nat)
      modifies this`log
      ensures Abs() == Emit(old(Abs()), kind, now)
    {
      log := log + [Emission(kind, now, value, |inputs|)];
    }

    method On(v: T, now: nat)
      modifies this
      ensures Abs() == OnInput(limits, old(Abs()), v, now)
    {
      value := v;
      inputs := inputs + [v];
      unsent := true;
      if Plus64(lastSend, limits.minimum) < now {
        Publish(ByValue, now);
        unsent := false;
        lastSend := now;
      }
    }

    method OnTimer(now: nat, reset: nat)
      modifies this, timer
      ensures Abs() == OnTick(limits, old(Abs()), now, reset)
    {
      if unsent {
        Publish(ByTick, now);
        unsent := false;
        lastSend := now;
      }
      if now > Plus64(lastSend, limits.maximum) {
        Publish(ByTick, now);
        unsent := false;
        lastSend := now;
      }
      timer.Reset(reset);
    }

    method PollTimer(due: nat, set_: nat, now: nat, reset: nat)
      requires due <= set_ <= now <= reset
      modifies this, timer
      ensures Abs() == OnEvent(limits, old(Abs()), Poll(due, set_, now, reset))
    {
      var fired := timer.Request(due, set_);
      if fired {
        OnTimer(now, reset);
      }
    }

    method Request(now: nat)
      modifies this`log
      ensures Abs() == Emit(old(Abs()), ByRequest, now)
    {
      Publish(ByRequest, now);
    }
  }

  /* ---- The invariant of every run ---- */

  ghost predicate Paced<T>(l: Limits, log: seq<Emission<T>>) {
    forall i, j :: 0 <= i < j < |log| ==>
      && log[i].time <= log[j].time
      && (log[j].kind == ByValue && log[i].kind != ByRequest ==> log[j].time > log[i].time + l.minimum)
      && (log[j].kind == ByTick && log[i].kind == ByTick ==> log[j].time >= log[i].time + l.minimum)
  }

  ghost predicate Latest<T>(s: State<T>) {
    forall i :: 0 <= i < |s.log| ==>
      s.log[i].seen <= |s.inputs| && (s.log[i].seen > 0 ==> s.log[i].value == s.inputs[s.log[i].seen - 1])
  }

  // The most recent input has been emitted.
  ghost predicate UpToDate<T>(s: State<T>) {
    s.inputs == [] || exists i :: 0 <= i < |s.log| && s.log[i].seen == |s.inputs|
  }

  predicate EverSent<T>(log: seq<Emission<T>>) {
    exists i :: 0 <= i < |log| && log[i].kind != ByRequest
  }

  // Once anything was sent, lastSend is the time of an emission.
  predicate SendLogged<T>(s: State<T>) {
    EverSent(s.log) ==> exists i :: 0 <= i < |s.log| && s.log[i].kind != ByRequest && s.log[i].time == s.lastSend
  }

  // No emission is later than the clock, and none that was sent later than lastSend.
  predicate Timed<T>(s: State<T>, clock: nat) {
    forall i :: 0 <= i < |s.log| ==>
      s.log[i].time <= clock && (s.log[i].kind != ByRequest ==> s.log[i].time <= s.lastSend <= clock)
  }

  ghost predicate HoldsLatest<T>(s: State<T>) {
    s.inputs != [] ==> s.value == s.inputs[|s.inputs| - 1]
  }

  // What the log and the rest of the state have to do with each other.
  ghost predicate Logged<T>(l: Limits, s: State<T>, clock: nat) {
    Paced(l, s.log) && Latest(s) && Timed(s, clock) && SendLogged(s)
  }

  ghost predicate Core<T>(l: Limits, s: State<T>, clock: nat) {
    && clock < LATEST && s.timer.interval == l.minimum && !s.timer.repeat
    && Logged(l, s, clock) && HoldsLatest(s)
    && (!s.unsent ==> UpToDate(s))
  }

  // Every tick that emitted did so a minimum before this time, or earlier.
  predicate TicksBefore<T>(l: Limits, log: seq<Emission<T>>, time: nat) {
    forall i :: 0 <= i < |log| && log[i].kind == ByTick ==> log[i].time + l.minimum <= time
  }

  ghost predicate Inv<T>(l: Limits, s: State<T>, clock: nat) {
    Core(l, s, clock) && TicksBefore(l, s.log, s.timer.expireTime)
  }

  lemma NoWrap(a: nat, b: nat)
    requires a < LATEST && b <= MAX_INTERVAL
    ensures Plus64(a, b) == a + b
  {
  }

  // May an emission of this kind be made now?
  predicate MayFollow<T>(l: Limits, log: seq<Emission<T>>, kind: Kind, now: nat) {
    forall i :: 0 <= i < |log| ==>
      && log[i].time <= now
      && (kind == ByValue && log[i].kind != ByRequest ==> now > log[i].time + l.minimum)
      && (kind == ByTick && log[i].kind == ByTick ==> now >= log[i].time + l.minimum)
  }

  lemma PacedAppend<T>(l: Limits, log: seq<Emission<T>>, e: Emission<T>)
    requires Paced(l, log) && MayFollow(l, log, e.kind, e.time)
    ensures Paced(l, log + [e])
  {
  }

  lemma LatestAppend<T>(s: State<T>, kind: Kind, now: nat)
    requires Latest(s) && HoldsLatest(s)
    ensures Latest(Emit(s, kind, now)) && UpToDate(Emit(s, kind, now))
  {
    var s' := Emit(s, kind, now);
    assert s'.log[|s.log|].seen == |s'.inputs|;
  }

  lemma SentIsLogged<T>(s: State<T>, kind: Kind, now: nat)
    ensures kind != ByRequest ==> SendLogged(Sent(s, kind, now))
    ensures SendLogged(s) ==> SendLogged(Emit(s, ByRequest, now))
  {
    var s' := Emit(s, kind, now);
    assert s'.log[|s.log|].kind == kind && s'.log[|s.log|].time == now;
    if SendLogged(s) && EverSent(s.log) {
      var i :| 0 <= i < |s.log| && s.log[i].kind != ByRequest && s.log[i].time == s.lastSend;
      assert Emit(s, ByRequest, now).log[i] == s.log[i];
    }
  }

  // The two ways of emitting: sending, and answering a request.
  function Emitted<T>(s: State<T>, kind: Kind, now: nat): State<T> {
    if kind == ByRequest then Emit(s, kind, now) else Sent(s, kind, now)
  }

  lemma EmittedLogged<T>(l: Limits, s: State<T>, clock: nat, kind: Kind, now: nat)
    requires Logged(l, s, clock) && HoldsLatest(s) && clock <= now && MayFollow(l, s.log, kind, now)
    ensures Logged(l, Emitted(s, kind, now), now) && UpToDate(Emitted(s, kind, now))
  {
    var s' := Emitted(s, kind, now);
    PacedAppend(l, s.log, Emission(kind, now, s.value, |s.inputs|));
    LatestAppend(s, kind, now);
    SentIsLogged(s, kind, now);
    hide Paced, SendLogged, MayFollow;
    assert Latest(s') && UpToDate(s') by {
      SameHistory(Emit(s, kind, now), s');
    }
    hide Latest, UpToDate;
  }

  lemma SameHistory<T>(s: State<T>, s': State<T>)
    requires s.inputs == s'.inputs && s.log == s'.log
    ensures Latest(s) ==> Latest(s')
    ensures UpToDate(s) ==> UpToDate(s')
    ensures s.lastSend == s'.lastSend && SendLogged(s) ==> SendLogged(s')
  {
  }

  lemma Arrived<T>(l: Limits, s: State<T>, clock: nat, v: T, now: nat)
    requires Logged(l, s, clock) && clock <= now
    ensures Logged(l, s.(value := v, unsent := true, inputs := s.inputs + [v]), now)
  {
  }

  lemma ValueMayFollow<T>(l: Limits, s: State<T>, clock: nat, now: nat)
    requires l.Valid() && Logged(l, s, clock) && clock <= now && clock < LATEST
    requires Plus64(s.lastSend, l.minimum) < now
    ensures MayFollow(l, s.log, ByValue, now)
  {
  }

  lemma InputKeeps<T>(l: Limits, s: State<T>, clock: nat, v: T, now: nat)
    requires l.Valid() && Inv(l, s, clock) && clock <= now < LATEST
    ensures Inv(l, OnInput(l, s, v, now), now)
  {
    var s1 := s.(value := v, unsent := true, inputs := s.inputs + [v]);
    Arrived(l, s, clock, v, now);
    if Plus64(s.lastSend, l.minimum) < now {
      ValueMayFollow(l, s, clock, now);
      EmittedLogged(l, s1, now, ByValue, now);
    }
    hide Plus64, Logged, UpToDate, MayFollow;
  }

  lemma TickEmits<T>(l: Limits, s: State<T>, clock: nat, now: nat)
    requires Core(l, s, clock) && TicksBefore(l, s.log, now) && clock <= now < LATEST
    ensures var s' := Sent(s, ByTick, now);
            Core(l, s', now) && UpToDate(s') && TicksBefore(l, s'.log, now + l.minimum)
  {
    assert MayFollow(l, s.log, ByTick, now);
    EmittedLogged(l, s, clock, ByTick, now);
    hide Logged, UpToDate, MayFollow;
  }

  // Giving the timer another deadline later than the ticks.
  lemma NewDeadline<T>(l: Limits, s: State<T>, clock: nat, later: nat, expireTime: nat)
    requires Core(l, s, clock) && clock <= later < LATEST
    ensures Core(l, s.(timer := s.timer.(expireTime := expireTime)), later)
    ensures UpToDate(s) ==> UpToDate(s.(timer := s.timer.(expireTime := expireTime)))
  {
  }

  predicate TickSends<T>(l: Limits, s: State<T>, now: nat) {
    s.unsent || now > Plus64(s.lastSend, l.maximum)
  }

  // The two tests of a tick never both emit: after the first, the last emission is now.
  lemma TickShape<T>(l: Limits, s: State<T>, now: nat, reset: nat)
    requires l.Valid() && now < LATEST && s.timer.interval == l.minimum
    ensures var s' := if TickSends(l, s, now) then Sent(s, ByTick, now) else s;
            OnTick(l, s, now, reset) == s'.(timer := s.timer.(expireTime := reset + l.minimum))
  {
  }

  lemma TickKeeps<T>(l: Limits, s: State<T>, clock: nat, due: nat, set_: nat, now: nat, reset: nat)
    requires l.Valid() && Inv(l, s, clock) && clock <= due <= set_ <= now <= reset < LATEST && due >= s.timer.expireTime
    ensures var s' := OnTick(l, s.(timer := Fired(s.timer, set_)), now, reset);
            && Inv(l, s', reset) && !s'.unsent && UpToDate(s') && |s'.log| <= |s.log| + 1
            && s'.timer.expireTime == reset + l.minimum
  {
    hide OnTick, TickSends, Logged, UpToDate;
    var s1 := s.(timer := Fired(s.timer, set_));
    NewDeadline(l, s, clock, now, s1.timer.expireTime);
    TickShape(l, s1, now, reset);
    TickEmits(l, s1, now, now);
    var s2 := if TickSends(l, s1, now) then Sent(s1, ByTick, now) else s1;
    assert !s2.unsent by {
      UnsentIsSent(l, s1, now);
    }
    NewDeadline(l, s2, now, reset, reset + l.minimum);
  }

  lemma UnsentIsSent<T>(l: Limits, s: State<T>, now: nat)
    ensures s.unsent ==> TickSends(l, s, now)
  {
  }

  lemma AskKeeps<T>(l: Limits, s: State<T>, clock: nat, now: nat)
    requires Inv(l, s, clock) && clock <= now < LATEST
    ensures Inv(l, Emit(s, ByRequest, now), now)
  {
    assert MayFollow(l, s.log, ByRequest, now);
    EmittedLogged(l, s, clock, ByRequest, now);
    hide Logged, UpToDate, MayFollow;
  }

  lemma {:induction false} RunInv<T>(l: Limits, s: State<T>, start: nat, events: seq<Event<T>>)
    requires l.Valid() && Fresh(l, s, start) && Monotone(start, events)
    ensures Inv(l, Run(l, s, events), Clock(start, events))
  {
    if events != [] {
      var n := |events| - 1;
      RunInv(l, s, start, events[..n]);
      var before, clock := Run(l, s, events[..n]), Clock(start, events[..n]);
      hide Inv, OnInput, OnTick, Emit;
      match events[n]
      case Input(v, now) => InputKeeps(l, before, clock, v, now);
      case Ask(now) => AskKeeps(l, before, clock, now);
      case Poll(due, set_, now, reset) =>
        if due >= before.timer.expireTime {
          TickKeeps(l, before, clock, due, set_, now, reset);
        } else {
          InvLater(l, before, clock, reset);
        }
    }
  }

  lemma InvLater<T>(l: Limits, s: State<T>, clock: nat, later: nat)
    requires Inv(l, s, clock) && clock <= later < LATEST
    ensures Inv(l, s, later)
  {
  }

  /* ---- What the invariant means ---- */

  // A value passes at once only more than the minimum after any earlier emission; ticks are at least the minimum apart.
  lemma EmissionsPaced<T>(l: Limits, s: State<T>, start: nat, events: seq<Event<T>>)
    requires l.Valid() && Fresh(l, s, start) && Monotone(start, events)
    ensures Paced(l, Run(l, s, events).log)
  {
    RunInv(l, s, start, events);
  }

  // Whatever is emitted after an input arrived is the latest input.
  lemma EmissionsAreLatest<T>(l: Limits, s: State<T>, start: nat, events: seq<Event<T>>, i: nat)
    requires l.Valid() && Fresh(l, s, start) && Monotone(start, events)
    requires i < |Run(l, s, events).log| && Run(l, s, events).log[i].seen > 0
    ensures var end := Run(l, s, events);
            end.log[i].seen <= |end.inputs| && end.log[i].value == end.inputs[end.log[i].seen - 1]
  {
    RunInv(l, s, start, events);
  }

  // A tick emits at most once and leaves nothing unsent.
  lemma TickSendsAll<T>(l: Limits, s: State<T>, start: nat, events: seq<Event<T>>, e: Event<T>)
    requires l.Valid() && Fresh(l, s, start) && Monotone(start, events + [e])
    requires e.Poll? && e.due >= Run(l, s, events).timer.expireTime
    ensures var before, after := Run(l, s, events), Run(l, s, events + [e]);
            && !after.unsent && UpToDate(after)
            && |before.log| <= |after.log| <= |before.log| + 1
            && after.timer.expireTime == e.reset + l.minimum
  {
    assert (events + [e])[..|events|] == events;
    RunInv(l, s, start, events);
    TickKeeps(l, Run(l, s, events), Clock(start, events), e.due, e.set_, e.now, e.reset);
  }

  // Until something is sent, lastSend is what it was at first.
  lemma {:induction false} FirstSendKept<T>(l: Limits, s: State<T>, events: seq<Event<T>>)
    requires s.log == []
    ensures !EverSent(Run(l, s, events).log) ==> Run(l, s, events).lastSend == s.lastSend
  {
    if events != [] {
      var n := |events| - 1;
      FirstSendKept(l, s, events[..n]);
      var before, after := Run(l, s, events[..n]), Run(l, s, events);
      hide Run, Plus64;
      LogGrows(l, before, events[n]);
      assert forall i :: 0 <= i < |before.log| ==> after.log[i] == before.log[i];
    }
  }

  lemma LogGrows<T>(l: Limits, s: State<T>, e: Event<T>)
    ensures s.log <= OnEvent(l, s, e).log
    ensures OnEvent(l, s, e).lastSend != s.lastSend ==> EverSent(OnEvent(l, s, e).log)
  {
    hide Plus64;
    var log := OnEvent(l, s, e).log;
    assert |log| > |s.log| && log[|log| - 1].kind != ByRequest ==> EverSent(log);
  }

  // When the next input passes at once: more than the minimum after everything sent so far, or, before anything is
  // sent, more than the minimum after whatever lastSend held at first, by the program's own addition.
  predicate PassesAtOnce<T>(l: Limits, garbage: nat, log: seq<Emission<T>>, now: nat) {
    if EverSent(log) then forall i :: 0 <= i < |log| && log[i].kind != ByRequest ==> log[i].time + l.minimum < now
    else Plus64(garbage, l.minimum) < now
  }

  // The next input is emitted at once, as it is, exactly then; otherwise it is kept and nothing is emitted.
  lemma InputPassesAtOnce<T>(l: Limits, s: State<T>, start: nat, events: seq<Event<T>>, v: T, now: nat)
    requires l.Valid() && Fresh(l, s, start) && Monotone(start, events)
    ensures var before, after := Run(l, s, events), OnInput(l, Run(l, s, events), v, now);
            if PassesAtOnce(l, s.lastSend, before.log, now) then
              after.log == before.log + [Emission(ByValue, now, v, |before.inputs| + 1)] && !after.unsent
            else after.log == before.log && after.unsent && after.value == v
  {
    RunInv(l, s, start, events);
    FirstSendKept(l, s, events);
    PassingIsTimed(l, s, Run(l, s, events), Clock(start, events), now);
    hide Run, Plus64, Inv, EverSent, PassesAtOnce, Fresh, Monotone, OnInput;
    InputStep(l, s.lastSend, Run(l, s, events), v, now);
  }

  lemma InputStep<T>(l: Limits, garbage: nat, before: State<T>, v: T, now: nat)
    requires PassesAtOnce(l, garbage, before.log, now) <==> Plus64(before.lastSend, l.minimum) < now
    ensures var after := OnInput(l, before, v, now);
            if PassesAtOnce(l, garbage, before.log, now) then
              after.log == before.log + [Emission(ByValue, now, v, |before.inputs| + 1)] && !after.unsent
            else after.log == before.log && after.unsent && after.value == v
  {
    hide Plus64, PassesAtOnce;
  }

  lemma PassingIsTimed<T>(l: Limits, s: State<T>, before: State<T>, clock: nat, now: nat)
    requires l.Valid() && Inv(l, before, clock) && (!EverSent(before.log) ==> before.lastSend == s.lastSend)
    ensures PassesAtOnce(l, s.lastSend, before.log, now) <==> Plus64(before.lastSend, l.minimum) < now
  {
    if EverSent(before.log) {
      NoWrap(before.lastSend, l.minimum);
    }
    hide Plus64, Paced, Latest, UpToDate;
  }

  // Before the first input the value is what it was at first, and there is nothing unsent.
  lemma {:induction false} NothingArrived<T>(l: Limits, s: State<T>, events: seq<Event<T>>)
    requires !s.unsent && s.inputs == []
    ensures Run(l, s, events).inputs == [] ==> Run(l, s, events).value == s.value && !Run(l, s, events).unsent
  {
    if events != [] {
      NothingArrived(l, s, events[..|events| - 1]);
      hide Plus64;
    }
  }

  // When a tick repeats the value: more than the maximum after everything sent so far, or, before anything is sent,
  // after whatever lastSend held at first, by the program's own addition.
  predicate RepeatsAt<T>(l: Limits, garbage: nat, log: seq<Emission<T>>, now: nat) {
    if EverSent(log) then forall i :: 0 <= i < |log| && log[i].kind != ByRequest ==> log[i].time + l.maximum < now
    else Plus64(garbage, l.maximum) < now
  }

  lemma RepeatIsTimed<T>(l: Limits, s: State<T>, before: State<T>, clock: nat, now: nat)
    requires l.Valid() && Inv(l, before, clock) && (!EverSent(before.log) ==> before.lastSend == s.lastSend)
    ensures RepeatsAt(l, s.lastSend, before.log, now) <==> now > Plus64(before.lastSend, l.maximum)
  {
    if EverSent(before.log) {
      NoWrap(before.lastSend, l.maximum);
    }
    hide Plus64, Paced, Latest, UpToDate;
  }

  // When the cache's timer is next due: a minimum after the last tick, or after the start.  Inputs and requests
  // do not move it.
  function TickDue<T>(l: Limits, start: nat, events: seq<Event<T>>): nat {
    if events == [] then start + l.minimum
    else
      var before, e := TickDue(l, start, events[..|events| - 1]), events[|events| - 1];
      if e.Poll? && e.due >= before then e.reset + l.minimum else before
  }

  lemma {:induction false} TimerDue<T>(l: Limits, s: State<T>, start: nat, events: seq<Event<T>>)
    requires Fresh(l, s, start)
    ensures Run(l, s, events).timer == Timer(l.minimum, false, TickDue(l, start, events))
  {
    if events != [] {
      TimerDue(l, s, start, events[..|events| - 1]);
      hide Plus64;
    }
  }

  // The latest input has been sent; answering a request is not sending.
  predicate LatestSent<T>(s: State<T>) {
    s.inputs == [] || exists i :: 0 <= i < |s.log| && s.log[i].kind != ByRequest && s.log[i].seen == |s.inputs|
  }

  lemma UnsentStep<T>(l: Limits, s: State<T>, e: Event<T>)
    requires s.unsent <==> !LatestSent(s)
    requires forall i :: 0 <= i < |s.log| ==> s.log[i].seen <= |s.inputs|
    ensures OnEvent(l, s, e).unsent <==> !LatestSent(OnEvent(l, s, e))
  {
    hide Plus64;
    var s' := OnEvent(l, s, e);
    LogGrows(l, s, e);
    assert forall i :: 0 <= i < |s.log| ==> s'.log[i] == s.log[i];
    assert |s'.log| > |s.log| && s'.log[|s.log|].kind != ByRequest && s'.log[|s.log|].seen == |s'.inputs| ==>
        LatestSent(s');
  }

  lemma {:induction false} UnsentExactly<T>(l: Limits, s: State<T>, start: nat, events: seq<Event<T>>)
    requires l.Valid() && Fresh(l, s, start) && Monotone(start, events)
    ensures Run(l, s, events).unsent <==> !LatestSent(Run(l, s, events))
  {
    if events != [] {
      var n := |events| - 1;
      UnsentExactly(l, s, start, events[..n]);
      RunInv(l, s, start, events[..n]);
      hide LatestSent, OnEvent;
      UnsentStep(l, Run(l, s, events[..n]), events[n]);
    }
  }

  // The latest input, or before the first one the value that was never set.
  function LatestValue<T>(s: State<T>, inputs: seq<T>): T {
    if inputs == [] then s.value else inputs[|inputs| - 1]
  }

  // What each event of a run emits, told from what arrived and what was emitted before.
  function EmittedBy<T>(l: Limits, s: State<T>, before: State<T>, due: nat, e: Event<T>): seq<Emission<T>> {
    var latest := LatestValue(s, before.inputs);
    match e
    case Input(v, now) =>
      if PassesAtOnce(l, s.lastSend, before.log, now) then [Emission(ByValue, now, v, |before.inputs| + 1)] else []
    case Ask(now) => [Emission(ByRequest, now, latest, |before.inputs|)]
    case Poll(polled, _, now, _) =>
      if polled >= due && (!LatestSent(before) || RepeatsAt(l, s.lastSend, before.log, now)) then
        [Emission(ByTick, now, latest, |before.inputs|)]
      else []
  }

  lemma EmittedByPoll<T>(l: Limits, s: State<T>, before: State<T>, e: Event<T>)
    requires l.Valid() && e.Poll? && e.now < LATEST && before.timer.interval == l.minimum
    requires before.unsent <==> !LatestSent(before)
    requires before.value == LatestValue(s, before.inputs)
    requires RepeatsAt(l, s.lastSend, before.log, e.now) <==> e.now > Plus64(before.lastSend, l.maximum)
    ensures OnEvent(l, before, e).log == before.log + EmittedBy(l, s, before, before.timer.expireTime, e)
  {
    TickShape(l, before.(timer := Fired(before.timer, e.set_)), e.now, e.reset);
    hide OnTick, OnInput, Plus64, RepeatsAt, LatestSent, LatestValue;
  }

  // An input passes at once or waits; a request is answered with the latest value; a tick, due a minimum after the one
  // before, emits the latest value exactly if that was not sent yet or it is time to repeat it.
  lemma EmittedExactly<T>(l: Limits, s: State<T>, start: nat, events: seq<Event<T>>, e: Event<T>)
    requires l.Valid() && Fresh(l, s, start) && Monotone(start, events + [e])
    ensures var before := Run(l, s, events);
            Run(l, s, events + [e]).log == before.log + EmittedBy(l, s, before, TickDue(l, start, events), e)
  {
    assert (events + [e])[..|events|] == events;
    var before := Run(l, s, events);
    assert Run(l, s, events + [e]) == OnEvent(l, before, e);
    RunInv(l, s, start, events);
    FirstSendKept(l, s, events);
    NothingArrived(l, s, events);
    UnsentExactly(l, s, start, events);
    TimerDue(l, s, start, events);
    assert HoldsLatest(before);
    hide Inv, Fresh, Monotone, Run, OnTick;
    match e
    case Input(v, now) => InputPassesAtOnce(l, s, start, events, v, now);
    case Ask(_) =>
    case Poll(due, set_, now, reset) =>
      RepeatIsTimed(l, s, before, Clock(start, events), now);
      hide EverSent, RepeatsAt, LatestSent, OnEvent, EmittedBy;
      EmittedByPoll(l, s, before, e);
  }

  // Before the first input, whatever is emitted is the value that was never set: for a request always, for a tick
  // exactly when it is time to repeat.
  lemma UnsetValueEmitted<T>(l: Limits, s: State<T>, start: nat, events: seq<Event<T>>, e: Event<T>)
    requires l.Valid() && Fresh(l, s, start) && Monotone(start, events + [e])
    requires Run(l, s, events).inputs == [] && !e.Input?
    ensures var before, after := Run(l, s, events), Run(l, s, events + [e]);
            after.log == before.log +
              match e
              case Ask(now) => [Emission(ByRequest, now, s.value, 0)]
              case Poll(due, _, now, _) =>
                if due >= TickDue(l, start, events) && RepeatsAt(l, s.lastSend, before.log, now)
                then [Emission(ByTick, now, s.value, 0)] else []
  {
    EmittedExactly(l, s, start, events, e);
    hide Run, RepeatsAt;
  }

  // After a tick, once anything was sent, the last emission is at most the maximum old.
  lemma SilenceBounded<T>(l: Limits, s: State<T>, start: nat, events: seq<Event<T>>, e: Event<T>)
    requires l.Valid() && Fresh(l, s, start) && Monotone(start, events + [e])
    requires e.Poll? && e.due >= Run(l, s, events).timer.expireTime && EverSent(Run(l, s, events).log)
    ensures exists i :: 0 <= i < |Run(l, s, events + [e]).log| &&
              Run(l, s, events + [e]).log[i].kind != ByRequest &&
              e.now <= Run(l, s, events + [e]).log[i].time + l.maximum
  {
    assert (events + [e])[..|events|] == events;
    RunInv(l, s, start, events);
    var before := Run(l, s, events);
    var s1 := before.(timer := Fired(before.timer, e.set_));
    TickShape(l, s1, e.now, e.reset);
    NoWrap(before.lastSend, l.maximum);
    hide Plus64, OnTick, Paced;
    if TickSends(l, s1, e.now) {
      assert Run(l, s, events + [e]).log[|before.log|].time == e.now;
    } else {
      var i :| 0 <= i < |before.log| && before.log[i].kind != ByRequest && before.log[i].time == before.lastSend;
      assert Run(l, s, events + [e]).log[i] == before.log[i];
    }
  }

  /* ---- How many emissions fit in a window ---- */

  // The times of the emissions of one kind within [from, to].
  function TimesIn<T>(log: seq<Emission<T>>, kind: Kind, from: nat, to: nat): seq<nat> {
    if log == [] then []
    else
      var e := log[|log| - 1];
      TimesIn(log[..|log| - 1], kind, from, to) + (if e.kind == kind && from <= e.time <= to then [e.time] else [])
  }

  predicate Spaced(times: seq<nat>, gap: nat) {
    forall i :: 0 <= i < |times| - 1 ==> times[i] + gap <= times[i + 1]
  }

  lemma {:induction false} TimesComeFromLog<T>(log: seq<Emission<T>>, kind: Kind, from: nat, to: nat)
    ensures forall x :: x in TimesIn(log, kind, from, to) ==>
              from <= x <= to && exists i :: 0 <= i < |log| && log[i].kind == kind && log[i].time == x
  {
    if log != [] {
      TimesComeFromLog(log[..|log| - 1], kind, from, to);
    }
  }

  lemma SpacedAppend(times: seq<nat>, gap: nat, time: nat)
    requires Spaced(times, gap) && (times != [] ==> times[|times| - 1] + gap <= time)
    ensures Spaced(times + [time], gap)
  {
  }

  // The last of the earlier emissions of a kind is a minimum before the one that ends the log.
  lemma LastIsEarlier<T>(l: Limits, log: seq<Emission<T>>, from: nat, to: nat)
    requires Paced(l, log) && log != [] && log[|log| - 1].kind != ByRequest
    ensures var e := log[|log| - 1];
            var earlier := TimesIn(log[..|log| - 1], e.kind, from, to);
            earlier != [] ==> earlier[|earlier| - 1] + l.minimum <= e.time
  {
    var e := log[|log| - 1];
    var earlier := TimesIn(log[..|log| - 1], e.kind, from, to);
    TimesComeFromLog(log[..|log| - 1], e.kind, from, to);
    hide TimesIn;
    if earlier != [] {
      assert earlier[|earlier| - 1] in earlier;
    }
  }

  lemma {:induction false} TimesSpaced<T>(l: Limits, log: seq<Emission<T>>, kind: Kind, from: nat, to: nat)
    requires Paced(l, log) && kind != ByRequest
    ensures Spaced(TimesIn(log, kind, from, to), l.minimum)
  {
    if log != [] {
      var n := |log| - 1;
      TimesSpaced(l, log[..n], kind, from, to);
      if log[n].kind == kind && from <= log[n].time <= to {
        LastIsEarlier(l, log, from, to);
        hide Paced, Spaced;
        SpacedAppend(TimesIn(log[..n], kind, from, to), l.minimum, log[n].time);
      }
    }
  }

  lemma {:induction false} SpacedSpan(times: seq<nat>, gap: nat)
    requires times != [] && Spaced(times, gap)
    ensures times[0] + (|times| - 1) * gap <= times[|times| - 1]
  {
    var n := |times| - 1;
    if n > 0 {
      SpacedSpan(times[..n], gap);
      assert n * gap == (n - 1) * gap + gap;
      assert times[n - 1] + gap <= times[n];
    }
  }

  lemma SpacedCount(times: seq<nat>, gap: nat, from: nat, to: nat)
    requires gap >= 1 && from <= to && Spaced(times, gap)
    requires forall x :: x in times ==> from <= x <= to
    ensures |times| <= (to - from) / gap + 1
  {
    if times != [] {
      SpacedSpan(times, gap);
      assert times[0] in times && times[|times| - 1] in times;
      Quotient(|times| - 1, gap, to - from);
    }
  }

  lemma Quotient(n: nat, gap: nat, span: nat)
    requires gap >= 1 && n * gap <= span
    ensures n <= span / gap
  {
    var q := span / gap;
    assert span == gap * q + span % gap;
    assert (q + 1) * gap == gap * q + gap;
    assert n >= q + 1 ==> n * gap >= (q + 1) * gap;
  }

  lemma KindWindow<T>(l: Limits, log: seq<Emission<T>>, kind: Kind, from: nat, length: nat)
    requires l.minimum >= 1 && Paced(l, log) && kind != ByRequest
    ensures |TimesIn(log, kind, from, from + length)| <= length / l.minimum + 1
  {
    hide Paced, Spaced;
    TimesSpaced(l, log, kind, from, from + length);
    TimesComeFromLog(log, kind, from, from + length);
    SpacedCount(TimesIn(log, kind, from, from + length), l.minimum, from, from + length);
  }

  // Explicit requests aside, any window of length ms holds at most 2 * (length / minimum + 1) emissions.
  lemma WindowBound<T>(l: Limits, s: State<T>, start: nat, events: seq<Event<T>>, from: nat, length: nat)
    requires l.Valid() && l.minimum >= 1 && Fresh(l, s, start) && Monotone(start, events)
    ensures var log := Run(l, s, events).log;
            |TimesIn(log, ByValue, from, from + length)| + |TimesIn(log, ByTick, from, from + length)|
            <= 2 * (length / l.minimum + 1)
  {
    hide Run, Paced, Fresh, Monotone, TimesIn;
    EmissionsPaced(l, s, start, events);
    var log := Run(l, s, events).log;
    KindWindow(l, log, ByValue, from, length);
    KindWindow(l, log, ByTick, from, length);
  }
}
