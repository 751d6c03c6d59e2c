/** `TimerSource`: a deadline in milliseconds, one-shot or repeating.

    Clock readings are parameters; within a call they never decrease.  Times are
    unbounded here: 64 bits of milliseconds do not wrap. */
module Timers {

  const NEVER: nat := 0xFFFF_FFFF_FFFF_FFFF
  const MAX_INTERVAL: nat := 0xFFFF_FFFF

  datatype Timer = Timer(interval: nat, repeat: bool, expireTime: nat)

  function Started(t: Timer, now: nat): Timer {
    t.(expireTime := now + t.interval)
  }

  // A timer keeps its phase; a repeating one whose next deadline has passed already starts again from now.
  function Advanced(t: Timer, now: nat): Timer {
    var next := t.expireTime + t.interval;
    t.(expireTime := if next < now && t.repeat then now + t.interval else next)
  }

  function Fired(t: Timer, now: nat): Timer {
    if t.repeat then Advanced(t, now) else t.(expireTime := now + MAX_INTERVAL)
  }

  // request(): due is the reading of the guard, now the one the new deadline is computed from.
  function Requested(t: Timer, due: nat, now: nat): Timer {
    if due >= t.expireTime then Fired(t, now) else t
  }

  class TimerSource {
    var interval: nat
    var repeat: bool
    var expireTime: nat

    constructor (interval: nat, repeat: bool, now: nat)
      ensures State() == if repeat then Started(Timer(interval, true, NEVER), now) else Timer(interval, false, NEVER)
    {
      this.interval := interval;
      this.repeat := repeat;
      expireTime := NEVER;
      new;
      if repeat {
        Start(now);
      }
    }

    ghost function State(): Timer
      reads this
    {
      Timer(interval, repeat, expireTime)
    }

    method Start(now: nat)
      modifies this
      ensures State() == Started(old(State()), now)
    {
      expireTime := now + interval;
    }

    method Reset(now: nat)
      modifies this
      ensures State() == Started(old(State()), now)
    {
      Start(now);
    }

    method StartWith(interval: nat, now: nat)
      modifies this
      ensures State() == Timer(interval, old(repeat), now + interval)
    {
      this.interval := interval;
      Start(now);
    }

    method Stop()
      modifies this
      ensures State() == old(State()).(expireTime := NEVER)
    {
      expireTime := NEVER;
    }

    method SetNewExpireTime(now: nat)
      modifies this
      ensures State() == Advanced(old(State()), now)
    {
      expireTime := expireTime + interval;
      if expireTime < now && repeat {
        expireTime := now + interval;
      }
    }

    // fired tells whether the subscribers are called.
    method Request(due: nat, now: nat) returns (fired: bool)
      requires due <= now
      modifies this
      ensures fired == (due >= old(expireTime))
      ensures State() == Requested(old(State()), due, now)
    {
      fired := due >= expireTime;
      if fired {
        if repeat {
          SetNewExpireTime(now);
        } else {
          expireTime := now + MAX_INTERVAL;
        }
      }
    }
  }
}
