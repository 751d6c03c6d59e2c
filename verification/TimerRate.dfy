/** Rate and drift of a repeating timer under any polling and any resets. */
module TimerRate {
  import opened Timers

  datatype Event = Poll(due: nat, now: nat) | Reset(now: nat)

  // The timer after some events, and when it fired.
  datatype History = History(timer: Timer, firings: seq<nat>)

  function OnEvent(h: History, e: Event): History {
    match e
    case Poll(due, now) =>
      History(Requested(h.timer, due, now), if due >= h.timer.expireTime then h.firings + [due] else h.firings)
    case Reset(now) => History(Started(h.timer, now), h.firings)
  }

  function Trace(t: Timer, events: seq<Event>): History {
    if events == [] then History(t, []) else OnEvent(Trace(t, events[..|events| - 1]), events[|events| - 1])
  }

  function LastClock(start: nat, events: seq<Event>): nat {
    if events == [] then start else events[|events| - 1].now
  }

  predicate Monotone(start: nat, events: seq<Event>) {
    events == [] ||
    (var e := events[|events| - 1];
     var clock := LastClock(start, events[..|events| - 1]);
     && Monotone(start, events[..|events| - 1])
     && (match e case Poll(due, now) => clock <= due <= now case Reset(now) => clock <= now))
  }

  // The deadline n intervals after the first.
  function Phase(t: Timer, n: nat): nat {
    t.expireTime + n * t.interval
  }

  lemma PhaseNext(t: Timer, n: nat)
    ensures Phase(t, n + 1) == Phase(t, n) + t.interval
  {
  }

  // The k-th firing, counting from zero, is no earlier than first deadline + k intervals, whatever resets there are.
  lemma {:induction false} RateBound(t: Timer, start: nat, events: seq<Event>)
    requires t.repeat && t.expireTime <= start + t.interval && Monotone(start, events)
    ensures var h := Trace(t, events);
            && h.timer.repeat && h.timer.interval == t.interval
            && h.timer.expireTime >= Phase(t, |h.firings|)
            && (forall k :: 0 <= k < |h.firings| ==> h.firings[k] >= Phase(t, k))
            && h.timer.expireTime <= LastClock(start, events) + t.interval
  {
    if events != [] {
      var n := |events| - 1;
      RateBound(t, start, events[..n]);
      PhaseNext(t, |Trace(t, events[..n]).firings|);
      hide Phase;
    }
  }

  // A reset never brings the deadline of a repeating timer forward.
  lemma ResetOnlyDelays(t: Timer, start: nat, events: seq<Event>, now: nat)
    requires t.repeat && t.expireTime <= start + t.interval && Monotone(start, events)
    requires LastClock(start, events) <= now
    ensures Started(Trace(t, events).timer, now).expireTime >= Trace(t, events).timer.expireTime
  {
    RateBound(t, start, events);
  }

  predicate NoResets(events: seq<Event>) {
    forall i :: 0 <= i < |events| ==> events[i].Poll?
  }

  // Every firing computes the next deadline at most one interval late.
  predicate Punctual(t: Timer, events: seq<Event>) {
    events == [] ||
    (var e := events[|events| - 1];
     var before := Trace(t, events[..|events| - 1]).timer;
     && Punctual(t, events[..|events| - 1])
     && (e.Poll? && e.due >= before.expireTime ==> e.now <= before.expireTime + before.interval))
  }

  // Left alone, the timer keeps its phase exactly when no firing is more than one interval late; otherwise it slips.
  lemma {:induction false} NoDriftIffPunctual(t: Timer, start: nat, events: seq<Event>)
    requires t.repeat && t.expireTime <= start + t.interval && Monotone(start, events) && NoResets(events)
    ensures var h := Trace(t, events);
            h.timer.expireTime == Phase(t, |h.firings|) <==> Punctual(t, events)
  {
    if events != [] {
      var n := |events| - 1;
      NoDriftIffPunctual(t, start, events[..n]);
      RateBound(t, start, events[..n]);
      PhaseNext(t, |Trace(t, events[..n]).firings|);
      hide Phase;
    }
  }

  /* ---- What a firing does to the ones after it ---- */

  // Event i is a poll that fires.
  predicate FiresAt(t: Timer, events: seq<Event>, i: nat)
    requires i < |events|
  {
    events[i].Poll? && events[i].due >= Trace(t, events[..i]).timer.expireTime
  }

  // It computes the next deadline when that one has passed already.
  predicate LateAt(t: Timer, events: seq<Event>, i: nat)
    requires i < |events|
  {
    FiresAt(t, events, i) && events[i].now > Trace(t, events[..i]).timer.expireTime + t.interval
  }

  lemma TraceNext(t: Timer, events: seq<Event>, i: nat)
    requires i < |events|
    ensures Trace(t, events[..i + 1]) == OnEvent(Trace(t, events[..i]), events[i])
  {
    assert events[..i + 1][..i] == events[..i];
  }

  lemma {:induction false} MonotonePrefix(start: nat, events: seq<Event>, i: nat)
    requires Monotone(start, events) && i <= |events|
    ensures Monotone(start, events[..i])
    decreases |events|
  {
    if i < |events| {
      var n := |events| - 1;
      assert events[..n][..i] == events[..i];
      MonotonePrefix(start, events[..n], i);
    } else {
      assert events[..i] == events;
    }
  }

  // The deadline of a repeating timer never comes nearer, whatever happens.
  lemma {:induction false} DeadlinesRise(t: Timer, start: nat, events: seq<Event>, i: nat, j: nat)
    requires t.repeat && t.expireTime <= start + t.interval && Monotone(start, events)
    requires i <= j <= |events|
    ensures Trace(t, events[..i]).timer.expireTime <= Trace(t, events[..j]).timer.expireTime
    decreases j
  {
    if i < j {
      DeadlinesRise(t, start, events, i, j - 1);
      TraceNext(t, events, j - 1);
      MonotonePrefix(start, events, j - 1);
      MonotonePrefix(start, events, j);
      RateBound(t, start, events[..j - 1]);
      assert events[..j][..j - 1] == events[..j - 1];
    }
  }

  // When a repeating timer is next due after event i, a reset or a firing: an interval after a reset, or after a
  // firing that came more than an interval late; otherwise an interval after the deadline that was met.
  function NextDue(t: Timer, events: seq<Event>, i: nat): nat
    requires i < |events|
  {
    if events[i].Reset? || LateAt(t, events, i) then events[i].now + t.interval
    else Trace(t, events[..i]).timer.expireTime + t.interval
  }

  // Nothing fires before that, and with neither a reset nor a firing in between a poll fires exactly from then on.
  lemma NextFiring(t: Timer, start: nat, events: seq<Event>, i: nat, j: nat)
    requires t.repeat && t.expireTime <= start + t.interval && Monotone(start, events)
    requires i < j < |events| && (events[i].Reset? || FiresAt(t, events, i))
    ensures FiresAt(t, events, j) ==> events[j].due >= NextDue(t, events, i)
    ensures (forall k :: i < k < j ==> events[k].Poll? && !FiresAt(t, events, k)) && events[j].Poll? ==>
              (FiresAt(t, events, j) <==> events[j].due >= NextDue(t, events, i))
  {
    MonotonePrefix(start, events, i);
    RateBound(t, start, events[..i]);
    TraceNext(t, events, i);
    DeadlinesRise(t, start, events, i + 1, j);
    if forall k :: i < k < j ==> events[k].Poll? && !FiresAt(t, events, k) {
      DeadlineKept(t, events, i + 1, j);
    }
  }

  // In particular, after a late firing nothing fires for an interval.
  lemma LateRestarts(t: Timer, start: nat, events: seq<Event>, i: nat, j: nat)
    requires t.repeat && t.expireTime <= start + t.interval && Monotone(start, events)
    requires i < j < |events| && LateAt(t, events, i)
    ensures FiresAt(t, events, j) ==> events[j].due >= events[i].now + t.interval
    ensures (forall k :: i < k < j ==> events[k].Poll? && !FiresAt(t, events, k)) && events[j].Poll? ==>
              (FiresAt(t, events, j) <==> events[j].due >= events[i].now + t.interval)
  {
    NextFiring(t, start, events, i, j);
  }

  lemma {:induction false} DeadlineKept(t: Timer, events: seq<Event>, i: nat, j: nat)
    requires i <= j <= |events| && forall k :: i <= k < j ==> events[k].Poll? && !FiresAt(t, events, k)
    ensures Trace(t, events[..j]).timer == Trace(t, events[..i]).timer
    decreases j
  {
    if i < j {
      DeadlineKept(t, events, i, j - 1);
      TraceNext(t, events, j - 1);
      assert !FiresAt(t, events, j - 1);
    }
  }

  // A one-shot timer, once it has fired, rests for 2^32 - 1 ms unless it is reset.
  lemma OneShotRests(t: Timer, events: seq<Event>, i: nat, j: nat)
    requires !t.repeat && i < j < |events| && FiresAt(t, events, i)
    requires forall k :: i < k <= j ==> events[k].Poll?
    requires forall k :: i < k < j ==> !FiresAt(t, events, k)
    ensures FiresAt(t, events, j) <==> events[j].due >= events[i].now + 0xFFFF_FFFF
  {
    KindStays(t, events[..i]);
    TraceNext(t, events, i);
    DeadlineKept(t, events, i + 1, j);
  }

  lemma {:induction false} KindStays(t: Timer, events: seq<Event>)
    ensures Trace(t, events).timer.repeat == t.repeat && Trace(t, events).timer.interval == t.interval
  {
    if events != [] {
      KindStays(t, events[..|events| - 1]);
    }
  }

  // The firings recorded are those events.
  function FiringTimes(t: Timer, events: seq<Event>): seq<nat> {
    if events == [] then []
    else
      var n := |events| - 1;
      FiringTimes(t, events[..n]) + (if FiresAt(t, events, n) then [events[n].due] else [])
  }

  lemma {:induction false} FiringsRecorded(t: Timer, events: seq<Event>)
    ensures Trace(t, events).firings == FiringTimes(t, events)
  {
    if events != [] {
      FiringsRecorded(t, events[..|events| - 1]);
    }
  }
}
