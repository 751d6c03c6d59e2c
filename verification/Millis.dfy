/** Arithmetic on millisecond clock readings where the program's unsigned 64 bits show. */
module Millis {

  const UINT64: nat := 0x1_0000_0000_0000_0000

  // Unsigned addition: wraps when the first reading was never set and may be anything.
  function Plus64(a: nat, b: nat): nat {
    (a + b) % UINT64
  }

  // Unsigned subtraction: a reading in the future seems very old.
  function Elapsed(now: nat, since: nat): nat {
    (now - since) % UINT64
  }

  // What both mean for any two readings of 64 bits, in plain integers.
  lemma Plain(a: nat, b: nat)
    requires a < 0x1_0000_0000_0000_0000 && b < 0x1_0000_0000_0000_0000
    ensures Plus64(a, b) == if a + b < 0x1_0000_0000_0000_0000 then a + b else a + b - 0x1_0000_0000_0000_0000
    ensures Elapsed(a, b) == if b <= a then a - b else a - b + 0x1_0000_0000_0000_0000
  {
  }
}
