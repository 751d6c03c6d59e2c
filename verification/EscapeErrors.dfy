/** One octet of a frame body in place of another, as the frame check sees it.

    If neither is an escape, the two bodies are not both accepted.  An escape made or
    unmade may pass: for every octet that stands by itself there is a body that shows it. */
module EscapeErrors {
  import opened Fcs
  import opened FcsDetection
  import opened PppFrame
  import opened LinkIntegrity

  function With(pre: seq<bv8>, c: bv8, post: seq<bv8>): seq<bv8> {
    pre + [c] + post
  }

  /* ---- Octets other than escapes ---- */

  lemma {:induction false} SameTail(a: seq<bv8>, b: seq<bv8>, post: seq<bv8>, lo: nat, hi: nat)
    requires |a| == |b| && ApartWithin(Bits(a), Bits(b), lo, hi)
    ensures ApartWithin(Bits(a + post), Bits(b + post), lo, hi)
  {
    if post == [] {
      assert a + post == a && b + post == b;
    } else {
      var n := |post| - 1;
      hide ApartWithin, Bits, OctetBits;
      SameTail(a, b, post[..n], lo, hi);
      assert a + post == a + post[..n] + [post[n]] && b + post == b + post[..n] + [post[n]];
      BitsOfOneMore(a + post[..n], post[n]);
      BitsOfOneMore(b + post[..n], post[n]);
      JoinWindow(Bits(a + post[..n]), Bits(b + post[..n]), OctetBits(post[n]), OctetBits(post[n]), lo, hi);
    }
  }

  lemma ApartInOctet(pre: seq<bv8>, c: bv8, d: bv8, post: seq<bv8>)
    ensures ApartWithin(Bits(With(pre, c, post)), Bits(With(pre, d, post)), 8 * |pre|, 8 * |pre| + 16)
  {
    BitsOfOneMore(pre, c);
    BitsOfOneMore(pre, d);
    hide Bits, OctetBits;
    JoinWindow(Bits(pre), Bits(pre), OctetBits(c), OctetBits(d), 8 * |pre|, 8 * |pre| + 16);
    SameTail(pre + [c], pre + [d], post, 8 * |pre|, 8 * |pre| + 16);
  }

  lemma OthersRejected(pre: seq<bv8>, c: bv8, d: bv8, post: seq<bv8>)
    requires c != d && c != ESC && d != ESC
    ensures !(Deframe(With(pre, c, post)).ok && Deframe(With(pre, d, post)).ok)
  {
    hide Deframe, Bits, ApartWithin;
    var x, y := With(pre, c, post), With(pre, d, post);
    assert x[|pre|] == c && y[|pre|] == d;
    ApartInOctet(pre, c, d, post);
    if Deframe(x).ok {
      WireCorruptionRejected(x, y, 8 * |pre|);
    }
  }

  /* ---- An escape made or unmade ---- */

  function Share(c: bv8, bit: bv8, share: bv16): bv16 {
    if c & bit != 0 then share else 0
  }

  // Two opening octets, low one first, after which c either leaves the register as it is or flips the mask's bit in it.
  function OpeningPair(c: bv8): bv16 {
    0xFFFF ^ Share(c, 1, 0x37ED) ^ Share(c, 2, 0x15CD) ^ Share(c, 4, 0x518D) ^ Share(c, 8, 0x2102)
    ^ Share(c, 16, 0x3813) ^ Share(c, 32, 0x0A31) ^ Share(c, 64, 0x6E75) ^ Share(c, 128, 0xA6FD)
  }

  function Opening(c: bv8): seq<bv8> {
    [LowOctet(OpeningPair(c)), HighOctet(OpeningPair(c))]
  }

  // The register they leave.
  function OpeningRegister(c: bv8): bv16 {
    Share(c, 1, 0x1CDD) ^ Share(c, 2, 0x3DFE) ^ Share(c, 4, 0x7FB8) ^ Share(c, 8, 0x033B)
    ^ Share(c, 16, 0x0232) ^ Share(c, 32, 0x0020) ^ Share(c, 64, 0x0404) ^ Share(c, 128, 0x0C4C)
  }

  predicate Plain(c: bv8) {
    c != ESC && c != FLAG
  }

  lemma OpeningLeaves(c: bv8)
    ensures FcsFrom(INITIAL, Opening(c)) == OpeningRegister(c)
  {
    hide OpeningRegister, OctetStep;
    FcsOfTwoMore(INITIAL, [], LowOctet(OpeningPair(c)), HighOctet(OpeningPair(c)));
    assert [] + Opening(c) == Opening(c);
    OpeningSteps(c);
    hide OpeningPair, LowOctet, HighOctet;
  }

  // The register between the two.
  function HalfwayRegister(c: bv8): bv16 {
    0x00FF ^ Share(c, 1, 0x3CEB) ^ Share(c, 2, 0x1DE9) ^ Share(c, 4, 0x5FED) ^ Share(c, 8, 0x2312)
    ^ Share(c, 16, 0x221A) ^ Share(c, 32, 0x200A) ^ Share(c, 64, 0x242A) ^ Share(c, 128, 0x2C6A)
  }

  lemma OpeningSteps(c: bv8)
    ensures OctetStep(OctetStep(INITIAL, LowOctet(OpeningPair(c))), HighOctet(OpeningPair(c))) == OpeningRegister(c)
  {
    FirstStep(c);
    SecondStep(c);
    hide OctetStep, OpeningPair, OpeningRegister, HalfwayRegister;
  }

  lemma FirstStep(c: bv8)
    ensures OctetStep(INITIAL, LowOctet(OpeningPair(c))) == HalfwayRegister(c)
  {
  }

  lemma SecondStep(c: bv8)
    ensures OctetStep(HalfwayRegister(c), HighOctet(OpeningPair(c))) == OpeningRegister(c)
  {
  }

  predicate Kept(c: bv8) {
    OctetStep(OpeningRegister(c), c) == OpeningRegister(c)
  }

  lemma OpeningWorks(c: bv8)
    ensures Kept(c) || OctetStep(OpeningRegister(c), c) == OpeningRegister(c) ^ 0x20
  {
  }

  lemma EndingIsPlain(c: bv8)
    requires Plain(c)
    ensures var low := LowOctet(Complement(OctetStep(OpeningRegister(c), c)));
            if Kept(c) then Plain(low ^ MASK) else Plain(low)
  {
    OpeningWorks(c);
  }

  // The closing octets that belong to the opening and c, the first of them arranged to be read
  // the same, or with the mask's bit flipped, behind an escape.
  function FirstClosing(c: bv8): seq<bv8> {
    var low := LowOctet(Complement(OctetStep(OpeningRegister(c), c)));
    if Kept(c) then [ESC, low ^ MASK] else [low]
  }

  function Closing(c: bv8): seq<bv8> {
    FirstClosing(c) + StuffOctet(HighOctet(Complement(OctetStep(OpeningRegister(c), c))))
  }

  // Read behind c, and read behind an escape in its place.
  lemma FirstClosingRead(c: bv8, s: seq<bv8>, octets: seq<bv8>)
    requires Plain(c)
    ensures var low := LowOctet(Complement(OctetStep(OpeningRegister(c), c)));
            && FLAG !in FirstClosing(c)
            && (Unstuff(s) == Scan(octets, false) ==> Unstuff(s + FirstClosing(c)) == Scan(octets + [low], false))
            && (Unstuff(s) == Scan(octets, true) ==>
                  Unstuff(s + FirstClosing(c)) == Scan(octets + [if Kept(c) then low else low ^ MASK], false))
  {
    EndingIsPlain(c);
    var low := LowOctet(Complement(OctetStep(OpeningRegister(c), c)));
    MaskedTwice(low);
    hide LowOctet, Complement, OctetStep, OpeningRegister, Unstuff, Kept;
    if Kept(c) {
      assert s + [ESC, low ^ MASK] == s + [ESC] + [low ^ MASK];
      UnstuffOneMore(s, ESC);
      UnstuffOneMore(s + [ESC], low ^ MASK);
    } else {
      UnstuffOneMore(s, low);
    }
  }

  lemma MaskedTwice(c: bv8)
    ensures (c ^ MASK) ^ MASK == c
  {
  }

  lemma ClosingRead(s: seq<bv8>, octets: seq<bv8>, high: bv8)
    requires Unstuff(s) == Scan(octets, false)
    ensures FLAG !in StuffOctet(high) && Unstuff(s + StuffOctet(high)) == Scan(octets + [high], false)
  {
    hide Unstuff, StuffOctet, Unstuff';
    StuffedOctet(high, Unstuff(s));
    UnstuffTwoMore(s, StuffOctet(high));
  }

  // The closing octets fit the opening with c, and the opening without.
  lemma ClosingFits(c: bv8)
    ensures var t := Complement(OctetStep(OpeningRegister(c), c));
            && Trailer(Opening(c) + [c]) == [LowOctet(t), HighOctet(t)]
            && Trailer(Opening(c)) == [if Kept(c) then LowOctet(t) else LowOctet(t) ^ MASK, HighOctet(t)]
  {
    OpeningWorks(c);
    OpeningLeaves(c);
    FcsOneMore(INITIAL, Opening(c), c);
    BitFlipped(OpeningRegister(c));
    hide LowOctet, HighOctet, Complement, OctetStep, OpeningRegister, Opening, FcsFrom;
  }

  lemma BitFlipped(r: bv16)
    ensures LowOctet(Complement(r)) == LowOctet(Complement(r ^ 0x20)) ^ MASK
    ensures HighOctet(Complement(r)) == HighOctet(Complement(r ^ 0x20))
  {
  }

  lemma CarriesWhenRead(s: seq<bv8>, first: seq<bv8>, last: seq<bv8>, p: seq<bv8>, low: bv8, high: bv8)
    requires |s| >= 3 && FLAG !in s && FLAG !in first && FLAG !in last
    requires Unstuff(s + first + last) == Scan(p + [low] + [high], false) && Trailer(p) == [low, high]
    ensures Deframe(s + (first + last)) == Deframed(true, p)
  {
    hide Unstuff, Deframe, Trailer;
    assert s + (first + last) == s + first + last;
    assert p + [low] + [high] == p + [low, high];
    CarriedIsAccepted(s + first + last, p);
  }

  // Stuffed octets s that are read as p, with the closing octets behind them, carry p if those fit it.
  lemma ClosedCarries(c: bv8, s: seq<bv8>, p: seq<bv8>, escaped: bool)
    requires Plain(c) && FLAG !in s && |s| >= 3 && Unstuff(s) == Scan(p, escaped)
    requires var t := Complement(OctetStep(OpeningRegister(c), c));
             Trailer(p) == [if escaped && !Kept(c) then LowOctet(t) ^ MASK else LowOctet(t), HighOctet(t)]
    ensures Deframe(s + Closing(c)) == Deframed(true, p)
  {
    FirstClosingRead(c, s, p);
    hide FirstClosing, Kept, LowOctet, HighOctet, Complement, OctetStep, OpeningRegister, Unstuff, StuffOctet, Deframe,
      Trailer, Plain;
    var t := Complement(OctetStep(OpeningRegister(c), c));
    var low := if escaped && !Kept(c) then LowOctet(t) ^ MASK else LowOctet(t);
    ClosingRead(s + FirstClosing(c), p + [low], HighOctet(t));
    CarriesWhenRead(s, FirstClosing(c), StuffOctet(HighOctet(t)), p, low, HighOctet(t));
  }

  // For every octet that can stand in a body by itself there is an accepted body in which an escape in its place is
  // accepted too: the octet is gone from the payload and nothing tells.
  lemma EscapeMissed(c: bv8)
    requires Plain(c)
    ensures Deframe(With(Stuff(Opening(c)), c, Closing(c))) == Deframed(true, Opening(c) + [c])
    ensures Deframe(With(Stuff(Opening(c)), ESC, Closing(c))) == Deframed(true, Opening(c))
  {
    var p, pre := Opening(c), Stuff(Opening(c));
    UnstuffStuff(p);
    UnstuffOneMore(pre, c);
    UnstuffOneMore(pre, ESC);
    ClosingFits(c);
    assert |p| == 2;
    hide LowOctet, HighOctet, Complement, OctetStep, OpeningRegister, Opening, Closing, Unstuff, Stuff, Kept, Deframe,
      Trailer;
    ClosedCarries(c, pre + [c], p + [c], false);
    ClosedCarries(c, pre + [ESC], p, true);
  }

  // One flipped bit, for instance: 0x75 becomes an escape, and both bodies are accepted.
  lemma OneBitMissed()
    ensures 0x75 ^ 0x08 == ESC
    ensures Deframe([0xC8, 0xC5, 0x75, 0xAC, 0x9A]) == Deframed(true, [0xC8, 0xC5, 0x75])
    ensures Deframe([0xC8, 0xC5, ESC, 0xAC, 0x9A]) == Deframed(true, [0xC8, 0xC5])
  {
    EscapeMissed(0x75);
    OpeningOf75();
    ClosingOf75();
    hide Opening, Closing, Deframe, Stuff;
    FiveOctets(0xC8, 0xC5, 0x75, 0xAC, 0x9A);
    FiveOctets(0xC8, 0xC5, ESC, 0xAC, 0x9A);
  }

  lemma FiveOctets(a: bv8, b: bv8, c: bv8, d: bv8, e: bv8)
    ensures With([a, b], c, [d, e]) == [a, b, c, d, e] && [a, b] + [c] == [a, b, c]
  {
  }

  lemma OpeningOf75()
    ensures Opening(0x75) == [0xC8, 0xC5] && Stuff(Opening(0x75)) == [0xC8, 0xC5]
  {
    assert OpeningPair(0x75) == 0xC5C8;
    assert Opening(0x75) == [0xC8, 0xC5];
    hide Opening;
    assert [0xC8, 0xC5][..1] == [0xC8];
    assert Stuff([0xC8]) == [0xC8];
  }

  lemma ClosingOf75()
    ensures Closing(0x75) == [0xAC, 0x9A]
  {
    assert OpeningRegister(0x75) == 0x6573;
    assert OctetStep(0x6573, 0x75) == 0x6553;
    hide OpeningRegister, OctetStep;
  }
}
