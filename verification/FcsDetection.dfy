/** What the frame check sequence detects, for unstuffed bodies of any length.

    The body is read as a sequence of bits, least significant bit of each octet
    first, which is the order in which the register consumes it.  Two bodies of
    equal length that differ only inside a window of sixteen bits, or that differ
    in an odd number of bits, cannot both pass the receiver's check. */
module FcsDetection {
  import opened Fcs

  function OctetBits(b: bv8): (bits: seq<bool>)
    ensures |bits| == 8
  {
    [b & 1 != 0, b & 2 != 0, b & 4 != 0, b & 8 != 0,
     b & 16 != 0, b & 32 != 0, b & 64 != 0, b & 128 != 0]
  }

  function Bits(s: seq<bv8>): (bits: seq<bool>)
    ensures |bits| == 8 * |s|
  {
    if s == [] then [] else Bits(s[..|s| - 1]) + OctetBits(s[|s| - 1])
  }

  function Flip(r: bv16, bit: bool): bv16 {
    if bit then Xor(r, 1) else r
  }

  // One bit of the message enters at the low end of the register, which then shifts.
  function BitStep(r: bv16, bit: bool): bv16 {
    ShiftBit(Flip(r, bit))
  }

  function FeedBits(r: bv16, bits: seq<bool>): bv16 {
    if bits == [] then r else BitStep(FeedBits(r, bits[..|bits| - 1]), bits[|bits| - 1])
  }

  /* ---- The octet register is the bit register ---- */

  lemma FeedOneMore(r: bv16, p: seq<bool>, bit: bool)
    ensures FeedBits(r, p + [bit]) == BitStep(FeedBits(r, p), bit)
  {
  }

  // Of an octet waiting in the register, one shift consumes the lowest bit.
  lemma ShiftConsumesBit(x: bv16, b: bv8)
    ensures ShiftBit(Absorb(x, b)) == Absorb(BitStep(x, b & 1 != 0), b >> 1)
  {
    hide ShiftBit, Absorb, Flip, Xor;
    AbsorbIsXor(x, b);
    AbsorbIsXor(BitStep(x, b & 1 != 0), b >> 1);
    Widen(b);
    ShiftOfXor(x, b as bv16);
  }

  lemma AbsorbIsXor(x: bv16, b: bv8)
    ensures Absorb(x, b) == Xor(x, b as bv16)
  {
  }

  lemma Widen(b: bv8)
    ensures (b >> 1) as bv16 == (b as bv16) >> 1
    ensures b & 1 != 0 <==> (b as bv16) & 1 == 1
  {
  }

  lemma ShiftOfXor(x: bv16, w: bv16)
    ensures ShiftBit(Xor(x, w)) == Xor(ShiftBit(Flip(x, w & 1 == 1)), w >> 1)
  {
    hide ShiftBit, Flip, Xor;
    var low := w & 1 == 1;
    EvenPart(w);
    ShiftBitLinear(Flip(x, low), Flip(w, low));
    FlipMovesOut(x, Flip(w, low), low);
    FlipMovesOut(x, w, low);
    FlipTwice(Xor(x, w), low, low);
    FlipNothing(Xor(x, w));
  }

  lemma EvenPart(w: bv16)
    ensures ShiftBit(Flip(w, w & 1 == 1)) == w >> 1
  {
    hide ShiftBit, Xor;
    if w & 1 == 1 {
      LowBitCleared(w);
      EvenShift(Xor(w, 1));
    } else {
      EvenShift(w);
    }
  }

  lemma LowBitCleared(w: bv16)
    requires w & 1 == 1
    ensures Xor(w, 1) & 1 != 1 && Xor(w, 1) >> 1 == w >> 1
  {
  }

  lemma EvenShift(w: bv16)
    requires w & 1 != 1
    ensures ShiftBit(w) == w >> 1
  {
  }

  lemma OctetStepIsEightBits(r: bv16, p: seq<bool>, b: bv8)
    ensures FeedBits(r, p + OctetBits(b)) == OctetStep(FeedBits(r, p), b)
  {
    hide ShiftBit, BitStep, Absorb, FeedBits;
    var t := OctetBits(b);
    assert p + t[..0] == p;
    assert p + t[..1] == p + t[..0] + [t[0]];
    assert p + t[..2] == p + t[..1] + [t[1]];
    assert p + t[..3] == p + t[..2] + [t[2]];
    assert p + t[..4] == p + t[..3] + [t[3]];
    assert p + t[..5] == p + t[..4] + [t[4]];
    assert p + t[..6] == p + t[..5] + [t[5]];
    assert p + t[..7] == p + t[..6] + [t[6]];
    assert p + t == p + t[..7] + [t[7]];
    FeedOneMore(r, p + t[..0], t[0]);
    FeedOneMore(r, p + t[..1], t[1]);
    FeedOneMore(r, p + t[..2], t[2]);
    FeedOneMore(r, p + t[..3], t[3]);
    FeedOneMore(r, p + t[..4], t[4]);
    FeedOneMore(r, p + t[..5], t[5]);
    FeedOneMore(r, p + t[..6], t[6]);
    FeedOneMore(r, p + t[..7], t[7]);
    EightConsumed(FeedBits(r, p), b);
  }

  function EightSteps(x: bv16, t: seq<bool>): bv16
    requires |t| == 8
  {
    var half := BitStep(BitStep(BitStep(BitStep(x, t[0]), t[1]), t[2]), t[3]);
    BitStep(BitStep(BitStep(BitStep(half, t[4]), t[5]), t[6]), t[7])
  }

  lemma EightConsumed(x: bv16, b: bv8)
    ensures OctetStep(x, b) == EightSteps(x, OctetBits(b))
  {
    hide ShiftBit, BitStep, Absorb;
    var b1, b2, b3, b4, b5, b6, b7 := b >> 1, b >> 2, b >> 3, b >> 4, b >> 5, b >> 6, b >> 7;
    ShiftedBits(b);
    var x1 := BitStep(x, b & 1 != 0);
    var x2 := BitStep(x1, b1 & 1 != 0);
    var x3 := BitStep(x2, b2 & 1 != 0);
    var x4 := BitStep(x3, b3 & 1 != 0);
    var x5 := BitStep(x4, b4 & 1 != 0);
    var x6 := BitStep(x5, b5 & 1 != 0);
    var x7 := BitStep(x6, b6 & 1 != 0);
    ShiftConsumesBit(x, b);
    ShiftConsumesBit(x1, b1);
    ShiftConsumesBit(x2, b2);
    ShiftConsumesBit(x3, b3);
    ShiftConsumesBit(x4, b4);
    ShiftConsumesBit(x5, b5);
    ShiftConsumesBit(x6, b6);
    ShiftConsumesBit(x7, b7);
    AbsorbZero(BitStep(x7, b7 & 1 != 0));
  }

  lemma ShiftedBits(b: bv8)
    ensures ((b >> 1) & 1 == 0 <==> b & 2 == 0) && (b >> 1) >> 1 == b >> 2
    ensures ((b >> 2) & 1 == 0 <==> b & 4 == 0) && (b >> 2) >> 1 == b >> 3
    ensures ((b >> 3) & 1 == 0 <==> b & 8 == 0) && (b >> 3) >> 1 == b >> 4
    ensures ((b >> 4) & 1 == 0 <==> b & 16 == 0) && (b >> 4) >> 1 == b >> 5
    ensures ((b >> 5) & 1 == 0 <==> b & 32 == 0) && (b >> 5) >> 1 == b >> 6
    ensures ((b >> 6) & 1 == 0 <==> b & 64 == 0) && (b >> 6) >> 1 == b >> 7
    ensures ((b >> 7) & 1 == 0 <==> b & 128 == 0) && (b >> 7) >> 1 == 0
  {
  }

  lemma AbsorbZero(x: bv16)
    ensures Absorb(x, 0) == x
  {
  }

  lemma {:induction false} FcsReadsBits(r: bv16, s: seq<bv8>)
    ensures FcsFrom(r, s) == FeedBits(r, Bits(s))
  {
    hide OctetStep, OctetBits, FeedBits;
    if s == [] {
      FeedNothing(r);
    } else {
      FcsReadsBits(r, s[..|s| - 1]);
      OctetStepIsEightBits(r, Bits(s[..|s| - 1]), s[|s| - 1]);
    }
  }

  lemma FeedNothing(r: bv16)
    ensures FeedBits(r, []) == r
  {
  }

  /* ---- Bursts ---- */

  // The register after the first k bits.
  function After(r: bv16, bits: seq<bool>, k: nat): bv16
    requires k <= |bits|
  {
    FeedBits(r, bits[..k])
  }

  lemma AfterStep(r: bv16, bits: seq<bool>, k: nat)
    requires k < |bits|
    ensures After(r, bits, k + 1) == BitStep(After(r, bits, k), bits[k])
  {
    assert bits[..k + 1] == bits[..k] + [bits[k]];
    FeedOneMore(r, bits[..k], bits[k]);
  }

  lemma BitStepInjective(x: bv16, y: bv16, bit: bool)
    requires BitStep(x, bit) == BitStep(y, bit)
    ensures x == y
  {
  }

  lemma FlipTwice(x: bv16, p: bool, q: bool)
    ensures Flip(Flip(x, p), q) == Flip(x, p != q)
  {
  }

  // Bits that agree preserve a difference between two registers.
  lemma {:induction false} EqualTailKeepsDifference(r: bv16, a: seq<bool>, b: seq<bool>, k: nat, n: nat)
    requires k <= n <= |a| == |b|
    requires forall i :: k <= i < n ==> a[i] == b[i]
    requires After(r, a, n) == After(r, b, n)
    ensures After(r, a, k) == After(r, b, k)
    decreases n - k
  {
    hide After, BitStep;
    if k < n {
      AfterStep(r, a, n - 1);
      AfterStep(r, b, n - 1);
      BitStepInjective(After(r, a, n - 1), After(r, b, n - 1), a[n - 1]);
      EqualTailKeepsDifference(r, a, b, k, n - 1);
    }
  }

  lemma {:induction false} EqualHeadSameRegister(r: bv16, a: seq<bool>, b: seq<bool>, k: nat)
    requires k <= |a| == |b|
    requires forall i :: 0 <= i < k ==> a[i] == b[i]
    ensures After(r, a, k) == After(r, b, k)
  {
    assert a[..k] == b[..k];
  }

  // The n lowest bits set.
  function Mask(n: nat): bv16
    requires n <= 16
  {
    match n
    case 0 => 0x0
    case 1 => 0x1
    case 2 => 0x3
    case 3 => 0x7
    case 4 => 0xF
    case 5 => 0x1F
    case 6 => 0x3F
    case 7 => 0x7F
    case 8 => 0xFF
    case 9 => 0x1FF
    case 10 => 0x3FF
    case 11 => 0x7FF
    case 12 => 0xFFF
    case 13 => 0x1FFF
    case 14 => 0x3FFF
    case 15 => 0x7FFF
    case _ => 0xFFFF
  }

  lemma MaskGrows(n: nat)
    requires n < 16
    ensures Mask(n + 1) == (Mask(n) << 1) | 1
    ensures Mask(n) & 0x8000 == 0
  {
  }

  // The differences of a window, first bit lowest.
  function Window(a: seq<bool>, b: seq<bool>, lo: nat, hi: nat): bv16
    requires lo <= hi <= |a| == |b|
    decreases hi - lo
  {
    if lo == hi then 0 else Prepend(a[lo] != b[lo], Window(a, b, lo + 1, hi))
  }

  function Prepend(bit: bool, w: bv16): bv16 {
    if bit then (w << 1) | 1 else w << 1
  }

  lemma PrependFits(bit: bool, w: bv16, m: bv16)
    requires w & !m == 0
    ensures Prepend(bit, w) & !((m << 1) | 1) == 0
  {
    assert (w << 1) & !((m << 1) | 1) == (w & !m) << 1;
    assert ((w << 1) | 1) & !((m << 1) | 1) == (w & !m) << 1;
  }

  lemma PrependZero(bit: bool, w: bv16, m: bv16)
    requires w & !m == 0 && m & 0x8000 == 0
    requires Prepend(bit, w) == 0
    ensures !bit && w == 0
  {
  }

  // Undoing one step: the difference before it is the difference after it, moved up, plus the difference of the bits.
  lemma DifferenceBefore(x: bv16, y: bv16, p: bool, q: bool, w: bv16, m: bv16)
    requires Xor(BitStep(x, p), BitStep(y, q)) == w
    requires w & !m == 0 && m & 0x8000 == 0
    ensures Xor(x, y) == Prepend(p != q, w)
  {
    hide ShiftBit, Xor, Flip, Prepend;
    ShiftBitLinear(Flip(x, p), Flip(y, q));
    UndoShift(Xor(Flip(x, p), Flip(y, q)), w, m);
    XorOfBits(x, y, p, q);
    PrependIsFlip(p != q, w);
  }

  lemma UndoShift(d: bv16, w: bv16, m: bv16)
    requires ShiftBit(d) == w && w & !m == 0 && m & 0x8000 == 0
    ensures d == w << 1
  {
  }

  lemma XorOfBits(x: bv16, y: bv16, p: bool, q: bool)
    ensures Xor(x, y) == Flip(Xor(Flip(x, p), Flip(y, q)), p != q)
  {
    hide Xor, Flip;
    FlipMovesOut(x, Flip(y, q), p);
    FlipMovesOut(x, y, q);
    FlipTwice(Xor(x, y), q, p);
    FlipTwice(Xor(x, y), q != p, q != p);
    FlipNothing(Xor(x, y));
  }

  lemma FlipMovesOut(x: bv16, y: bv16, p: bool)
    ensures Xor(Flip(x, p), y) == Flip(Xor(x, y), p)
    ensures Xor(x, Flip(y, p)) == Flip(Xor(x, y), p)
  {
    hide Xor;
    XorMovesOut(x, y, 1);
  }

  lemma FlipNothing(x: bv16)
    ensures Flip(x, false) == x
  {
  }

  lemma PrependIsFlip(bit: bool, w: bv16)
    ensures Prepend(bit, w) == Flip(w << 1, bit)
  {
  }

  // If the registers agree after a window, then before it they differ by exactly the window.
  lemma {:induction false} WindowIsDifference(r: bv16, a: seq<bool>, b: seq<bool>, lo: nat, hi: nat)
    requires lo <= hi <= |a| == |b| && hi - lo <= 16
    requires After(r, a, hi) == After(r, b, hi)
    ensures Xor(After(r, a, lo), After(r, b, lo)) == Window(a, b, lo, hi)
    ensures Window(a, b, lo, hi) & !Mask(hi - lo) == 0
    decreases hi - lo
  {
    hide After, BitStep, Prepend, Mask;
    if lo == hi {
      XorSame(After(r, a, lo), !Mask(0));
    } else {
      WindowIsDifference(r, a, b, lo + 1, hi);
      MaskGrows(hi - lo - 1);
      AfterStep(r, a, lo);
      AfterStep(r, b, lo);
      var w, m := Window(a, b, lo + 1, hi), Mask(hi - lo - 1);
      DifferenceBefore(After(r, a, lo), After(r, b, lo), a[lo], b[lo], w, m);
      PrependFits(a[lo] != b[lo], w, m);
    }
  }

  lemma XorSame(x: bv16, m: bv16)
    ensures Xor(x, x) == 0 && 0 & m == 0
  {
  }

  lemma {:induction false} EmptyWindow(r: bv16, a: seq<bool>, b: seq<bool>, lo: nat, hi: nat)
    requires lo <= hi <= |a| == |b| && hi - lo <= 16
    requires After(r, a, hi) == After(r, b, hi)
    requires Window(a, b, lo, hi) == 0
    ensures forall i :: lo <= i < hi ==> a[i] == b[i]
    decreases hi - lo
  {
    hide After, Prepend, Mask;
    if lo < hi {
      WindowIsDifference(r, a, b, lo + 1, hi);
      MaskGrows(hi - lo - 1);
      PrependZero(a[lo] != b[lo], Window(a, b, lo + 1, hi), Mask(hi - lo - 1));
      EmptyWindow(r, a, b, lo + 1, hi);
    }
  }

  lemma BurstChangesRegister(r: bv16, a: seq<bool>, b: seq<bool>, start: nat)
    requires |a| == |b|
    requires forall i :: 0 <= i < |a| && !(start <= i < start + 16) ==> a[i] == b[i]
    requires FeedBits(r, a) == FeedBits(r, b)
    ensures a == b
  {
    hide FeedBits, Window;
    var lo := if start <= |a| then start else |a|;
    var hi := if start + 16 <= |a| then start + 16 else |a|;
    assert a[..|a|] == a && b[..|b|] == b;
    EqualTailKeepsDifference(r, a, b, hi, |a|);
    EqualHeadSameRegister(r, a, b, lo);
    WindowIsDifference(r, a, b, lo, hi);
    XorSame(After(r, a, lo), 0);
    EmptyWindow(r, a, b, lo, hi);
  }

  lemma OctetBitsInjective(x: bv8, y: bv8)
    requires OctetBits(x) == OctetBits(y)
    ensures x == y
  {
  }

  lemma {:induction false} BitsInjective(a: seq<bv8>, b: seq<bv8>)
    requires |a| == |b| && Bits(a) == Bits(b)
    ensures a == b
  {
    hide OctetBits;
    if a != [] {
      var n := |a| - 1;
      var p, q := Bits(a[..n]), Bits(b[..n]);
      assert Bits(a)[..8 * n] == p && Bits(b)[..8 * n] == q;
      assert Bits(a)[8 * n..] == OctetBits(a[n]) && Bits(b)[8 * n..] == OctetBits(b[n]);
      BitsInjective(a[..n], b[..n]);
      OctetBitsInjective(a[n], b[n]);
    }
  }

  // Two bodies that differ, and only inside one window of sixteen bits, do not both pass.
  lemma BurstDetected(a: seq<bv8>, b: seq<bv8>, start: nat)
    requires |a| == |b| && a != b
    requires forall i :: 0 <= i < 8 * |a| && !(start <= i < start + 16) ==> Bits(a)[i] == Bits(b)[i]
    ensures !(Passes(a) && Passes(b))
  {
    hide FeedBits, Bits, FcsFrom, Passes;
    if Passes(a) && Passes(b) {
      PassesIffResidue(a);
      PassesIffResidue(b);
      FcsReadsBits(INITIAL, a);
      FcsReadsBits(INITIAL, b);
      BurstChangesRegister(INITIAL, Bits(a), Bits(b), start);
      BitsInjective(a, b);
    }
  }

  /* ---- Odd numbers of flipped bits ---- */

  // Whether an odd number of the n lowest bits is set.
  function ParityOf(r: bv16, n: nat): bool
    decreases n
  {
    n > 0 && LowBit(r) != ParityOf(Half(r), n - 1)
  }

  function Parity(r: bv16): bool {
    ParityOf(r, 16)
  }

  function OddOnes(bits: seq<bool>): bool {
    bits != [] && OddOnes(bits[..|bits| - 1]) != bits[|bits| - 1]
  }

  // How many positions differ.
  function Differences(x: seq<bool>, y: seq<bool>): nat
    requires |x| == |y|
  {
    if x == [] then 0
    else Differences(x[..|x| - 1], y[..|x| - 1]) + (if x[|x| - 1] != y[|x| - 1] then 1 else 0)
  }

  lemma {:induction false} ParityLinear(x: bv16, y: bv16, n: nat)
    ensures ParityOf(Xor(x, y), n) == (ParityOf(x, n) != ParityOf(y, n))
    decreases n
  {
    hide Xor, LowBit;
    if n > 0 {
      ParityLinear(Half(x), Half(y), n - 1);
      XorOfHalves(x, y);
      XorOfLowBits(x, y);
    }
  }

  // No bit of x lies outside the mask.
  predicate Within(x: bv16, m: bv16) {
    x & !m == 0
  }

  predicate Fits(x: bv16, n: nat)
    requires n <= 16
  {
    Within(x, Mask(n))
  }

  lemma {:induction false} NothingLeft(x: bv16, n: nat)
    requires n <= 16 && Fits(x, n)
    ensures ParityOf(x, n + 1) == ParityOf(x, n)
    decreases n
  {
    hide Fits, LowBit, Half;
    if n == 0 {
      NothingFits(x);
    } else {
      HalfFits(x, n - 1);
      NothingLeft(Half(x), n - 1);
    }
  }

  lemma NothingFits(x: bv16)
    requires Fits(x, 0)
    ensures !LowBit(x)
  {
  }

  lemma HalfFits(x: bv16, n: nat)
    requires n < 16 && Fits(x, n + 1)
    ensures Fits(Half(x), n)
  {
  }

  lemma ShiftDropsLowBit(r: bv16)
    ensures Parity(Half(r)) == (Parity(r) != LowBit(r))
  {
    assert Fits(r, 16);
    hide LowBit, Half, Fits;
    var n := 16;
    NothingLeft(r, n);
    assert ParityOf(r, n + 1) == (LowBit(r) != ParityOf(Half(r), n));
  }

  // The generator is divisible by x + 1: a shift keeps the parity of the register.
  lemma ShiftKeepsParity(r: bv16)
    ensures Parity(ShiftBit(r)) == Parity(r)
  {
    hide ShiftBit, LowBit, Half, Xor, Parity;
    ShiftDropsLowBit(r);
    PolynomialIsOdd();
    ParityOfXor(Half(r), POLYNOMIAL);
    ShiftIsXor(r);
  }

  lemma ParityOfXor(x: bv16, y: bv16)
    ensures Parity(Xor(x, y)) == (Parity(x) != Parity(y))
  {
    hide Xor, LowBit, Half;
    var n := 16;
    ParityLinear(x, y, n);
  }

  lemma PolynomialIsOdd()
    ensures Parity(POLYNOMIAL) && Parity(1)
  {
    assert ParityOf(0x1, 1) == true;
    assert ParityOf(0x2, 2) == true;
    assert ParityOf(0x4, 3) == true;
    assert ParityOf(0x8, 4) == true;
    assert ParityOf(0x10, 5) == true;
    assert ParityOf(0x21, 6) == false;
    assert ParityOf(0x42, 7) == false;
    assert ParityOf(0x84, 8) == false;
    assert ParityOf(0x108, 9) == false;
    assert ParityOf(0x210, 10) == false;
    assert ParityOf(0x420, 11) == false;
    assert ParityOf(0x840, 12) == false;
    assert ParityOf(0x1081, 13) == true;
    assert ParityOf(0x2102, 14) == true;
    assert ParityOf(0x4204, 15) == true;
    assert ParityOf(0x8408, 16) == true;
    ZeroIsEven(15);
  }

  lemma ZeroIsEven(n: nat)
    ensures !ParityOf(0, n)
  {
  }

  lemma FlipChangesParity(r: bv16, bit: bool)
    ensures Parity(Flip(r, bit)) == (Parity(r) != bit)
  {
    FlipIsXor(r);
    hide Flip, LowBit, Xor, Parity;
    PolynomialIsOdd();
    ParityOfXor(r, 1);
  }

  lemma FlipIsXor(r: bv16)
    ensures Flip(r, true) == Xor(r, 1) && Flip(r, false) == r
  {
  }

  lemma BitStepParity(r: bv16, bit: bool)
    ensures Parity(BitStep(r, bit)) == (Parity(r) != bit)
  {
    hide ShiftBit, Parity, Flip;
    FlipChangesParity(r, bit);
    ShiftKeepsParity(Flip(r, bit));
  }

  lemma {:induction false} RegisterParity(r: bv16, bits: seq<bool>)
    ensures Parity(FeedBits(r, bits)) == (Parity(r) != OddOnes(bits))
  {
    hide Parity, BitStep;
    if bits != [] {
      RegisterParity(r, bits[..|bits| - 1]);
      BitStepParity(FeedBits(r, bits[..|bits| - 1]), bits[|bits| - 1]);
    }
  }

  lemma {:induction false} DifferencesParity(x: seq<bool>, y: seq<bool>)
    requires |x| == |y|
    ensures OddOnes(x) != OddOnes(y) <==> Differences(x, y) % 2 == 1
  {
    if x != [] {
      DifferencesParity(x[..|x| - 1], y[..|x| - 1]);
    }
  }

  // Flipping an odd number of bits of an accepted body makes it rejected.
  lemma OddErrorsDetected(a: seq<bv8>, b: seq<bv8>)
    requires |a| == |b|
    requires Differences(Bits(a), Bits(b)) % 2 == 1
    ensures !(Passes(a) && Passes(b))
  {
    hide FeedBits, Bits, FcsFrom, Passes, Parity, OddOnes, Differences;
    if Passes(a) && Passes(b) {
      PassesIffResidue(a);
      PassesIffResidue(b);
      FcsReadsBits(INITIAL, a);
      FcsReadsBits(INITIAL, b);
      RegisterParity(INITIAL, Bits(a));
      RegisterParity(INITIAL, Bits(b));
      DifferencesParity(Bits(a), Bits(b));
    }
  }
}
