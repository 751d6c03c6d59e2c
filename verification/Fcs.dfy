/** The 16-bit frame check sequence of the serial link.

    `OctetStep` is the reference: the bit-serial register of RFC 1662, reflected
    polynomial 0x8408, one shift for every bit of an octet.  `FcsRegister` is the
    object the link code uses; it consumes an octet with one table lookup, and its
    contract says that the lookup does the eight shifts of the reference. */
module Fcs {

  const POLYNOMIAL: bv16 := 0x8408
  const INITIAL: bv16 := 0xFFFF

  // The register left by a correct frame, and its complement, which is what the receiver compares.
  const RESIDUE: bv16 := 0xF0B8
  const GOOD_RESULT: bv16 := 0x0F47

  function ShiftBit(r: bv16): bv16 {
    if r & 1 == 1 then (r >> 1) ^ POLYNOMIAL else r >> 1
  }

  function ShiftOctet(r: bv16): bv16 {
    ShiftBit(ShiftBit(ShiftBit(ShiftBit(ShiftBit(ShiftBit(ShiftBit(ShiftBit(r))))))))
  }

  function Absorb(r: bv16, b: bv8): bv16 {
    r ^ (b as bv16)
  }

  function OctetStep(r: bv16, b: bv8): bv16 {
    ShiftOctet(Absorb(r, b))
  }

  // The register after the octets of s, starting from r.
  function FcsFrom(r: bv16, s: seq<bv8>): bv16 {
    if s == [] then r else OctetStep(FcsFrom(r, s[..|s| - 1]), s[|s| - 1])
  }

  function Complement(r: bv16): bv16 {
    !r
  }

  // The receiver's check of an unstuffed body, closing octets included.
  predicate Passes(s: seq<bv8>) {
    Complement(FcsFrom(INITIAL, s)) == GOOD_RESULT
  }

  function LowOctet(r: bv16): bv8 {
    (r & 0xFF) as bv8
  }

  function HighOctet(r: bv16): bv8 {
    (r >> 8) as bv8
  }

  // The two octets that close a frame: the complemented register, least significant octet first.
  function Trailer(s: seq<bv8>): seq<bv8> {
    var result := Complement(FcsFrom(INITIAL, s));
    [LowOctet(result), HighOctet(result)]
  }

  /* ---- The lookup table, in rows of sixteen ---- */

  const ROW_0: seq<bv16> := [
    0x0000, 0x1189, 0x2312, 0x329B, 0x4624, 0x57AD, 0x6536, 0x74BF,
    0x8C48, 0x9DC1, 0xAF5A, 0xBED3, 0xCA6C, 0xDBE5, 0xE97E, 0xF8F7]

  const ROW_1: seq<bv16> := [
    0x1081, 0x0108, 0x3393, 0x221A, 0x56A5, 0x472C, 0x75B7, 0x643E,
    0x9CC9, 0x8D40, 0xBFDB, 0xAE52, 0xDAED, 0xCB64, 0xF9FF, 0xE876]

  const ROW_2: seq<bv16> := [
    0x2102, 0x308B, 0x0210, 0x1399, 0x6726, 0x76AF, 0x4434, 0x55BD,
    0xAD4A, 0xBCC3, 0x8E58, 0x9FD1, 0xEB6E, 0xFAE7, 0xC87C, 0xD9F5]

  const ROW_3: seq<bv16> := [
    0x3183, 0x200A, 0x1291, 0x0318, 0x77A7, 0x662E, 0x54B5, 0x453C,
    0xBDCB, 0xAC42, 0x9ED9, 0x8F50, 0xFBEF, 0xEA66, 0xD8FD, 0xC974]

  const ROW_4: seq<bv16> := [
    0x4204, 0x538D, 0x6116, 0x709F, 0x0420, 0x15A9, 0x2732, 0x36BB,
    0xCE4C, 0xDFC5, 0xED5E, 0xFCD7, 0x8868, 0x99E1, 0xAB7A, 0xBAF3]

  const ROW_5: seq<bv16> := [
    0x5285, 0x430C, 0x7197, 0x601E, 0x14A1, 0x0528, 0x37B3, 0x263A,
    0xDECD, 0xCF44, 0xFDDF, 0xEC56, 0x98E9, 0x8960, 0xBBFB, 0xAA72]

  const ROW_6: seq<bv16> := [
    0x6306, 0x728F, 0x4014, 0x519D, 0x2522, 0x34AB, 0x0630, 0x17B9,
    0xEF4E, 0xFEC7, 0xCC5C, 0xDDD5, 0xA96A, 0xB8E3, 0x8A78, 0x9BF1]

  const ROW_7: seq<bv16> := [
    0x7387, 0x620E, 0x5095, 0x411C, 0x35A3, 0x242A, 0x16B1, 0x0738,
    0xFFCF, 0xEE46, 0xDCDD, 0xCD54, 0xB9EB, 0xA862, 0x9AF9, 0x8B70]

  const ROW_8: seq<bv16> := [
    0x8408, 0x9581, 0xA71A, 0xB693, 0xC22C, 0xD3A5, 0xE13E, 0xF0B7,
    0x0840, 0x19C9, 0x2B52, 0x3ADB, 0x4E64, 0x5FED, 0x6D76, 0x7CFF]

  const ROW_9: seq<bv16> := [
    0x9489, 0x8500, 0xB79B, 0xA612, 0xD2AD, 0xC324, 0xF1BF, 0xE036,
    0x18C1, 0x0948, 0x3BD3, 0x2A5A, 0x5EE5, 0x4F6C, 0x7DF7, 0x6C7E]

  const ROW_A: seq<bv16> := [
    0xA50A, 0xB483, 0x8618, 0x9791, 0xE32E, 0xF2A7, 0xC03C, 0xD1B5,
    0x2942, 0x38CB, 0x0A50, 0x1BD9, 0x6F66, 0x7EEF, 0x4C74, 0x5DFD]

  const ROW_B: seq<bv16> := [
    0xB58B, 0xA402, 0x9699, 0x8710, 0xF3AF, 0xE226, 0xD0BD, 0xC134,
    0x39C3, 0x284A, 0x1AD1, 0x0B58, 0x7FE7, 0x6E6E, 0x5CF5, 0x4D7C]

  const ROW_C: seq<bv16> := [
    0xC60C, 0xD785, 0xE51E, 0xF497, 0x8028, 0x91A1, 0xA33A, 0xB2B3,
    0x4A44, 0x5BCD, 0x6956, 0x78DF, 0x0C60, 0x1DE9, 0x2F72, 0x3EFB]

  const ROW_D: seq<bv16> := [
    0xD68D, 0xC704, 0xF59F, 0xE416, 0x90A9, 0x8120, 0xB3BB, 0xA232,
    0x5AC5, 0x4B4C, 0x79D7, 0x685E, 0x1CE1, 0x0D68, 0x3FF3, 0x2E7A]

  const ROW_E: seq<bv16> := [
    0xE70E, 0xF687, 0xC41C, 0xD595, 0xA12A, 0xB0A3, 0x8238, 0x93B1,
    0x6B46, 0x7ACF, 0x4854, 0x59DD, 0x2D62, 0x3CEB, 0x0E70, 0x1FF9]

  const ROW_F: seq<bv16> := [
    0xF78F, 0xE606, 0xD49D, 0xC514, 0xB1AB, 0xA022, 0x92B9, 0x8330,
    0x7BC7, 0x6A4E, 0x58D5, 0x495C, 0x3DE3, 0x2C6A, 0x1EF1, 0x0F78]

  function TableRow(high: bv8): (row: seq<bv16>)
    ensures |row| == 16
  {
    match high
    case 0 => ROW_0
    case 1 => ROW_1
    case 2 => ROW_2
    case 3 => ROW_3
    case 4 => ROW_4
    case 5 => ROW_5
    case 6 => ROW_6
    case 7 => ROW_7
    case 8 => ROW_8
    case 9 => ROW_9
    case 10 => ROW_A
    case 11 => ROW_B
    case 12 => ROW_C
    case 13 => ROW_D
    case 14 => ROW_E
    case _ => ROW_F
  }

  function TableAt(i: bv8): bv16 {
    NibbleBound(i);
    TableRow(i >> 4)[(i & 15) as int]
  }

  lemma NibbleBound(i: bv8)
    ensures i & 15 < 16
    ensures i >> 4 < 16
  {
  }

  lemma NibbleCases(i: bv8)
    ensures i & 15 == 0 || i & 15 == 1 || i & 15 == 2 || i & 15 == 3
         || i & 15 == 4 || i & 15 == 5 || i & 15 == 6 || i & 15 == 7
         || i & 15 == 8 || i & 15 == 9 || i & 15 == 10 || i & 15 == 11
         || i & 15 == 12 || i & 15 == 13 || i & 15 == 14 || i & 15 == 15
  {
  }

  // Every entry of the table is eight shifts of its index.
  lemma TableIsSerial(i: bv8)
    ensures TableAt(i) == ShiftOctet(i as bv16)
  {
    NibbleCases(i);
    NibbleCases(i >> 4);
  }

  // Exclusive or under a name: proofs that only rearrange sums hide its definition.
  function Xor(x: bv16, y: bv16): bv16 {
    x ^ y
  }

  // The table-driven step of the register.
  function TableStep(r: bv16, b: bv8): bv16 {
    Xor(r >> 8, TableAt(LowOctet(r) ^ b))
  }

  /* ---- Algebra of the register over exclusive or ---- */

  lemma XorCommutes(x: bv16, y: bv16)
    ensures Xor(x, y) == Xor(y, x)
  {
  }

  lemma XorAssociates(x: bv16, y: bv16, z: bv16)
    ensures Xor(Xor(x, y), z) == Xor(x, Xor(y, z))
  {
  }

  lemma XorUndoes(x: bv16, y: bv16)
    ensures Xor(Xor(x, y), y) == x
  {
  }

  function Half(x: bv16): bv16 {
    x >> 1
  }

  predicate LowBit(x: bv16) {
    x & 1 == 1
  }

  lemma XorOfHalves(x: bv16, y: bv16)
    ensures Half(Xor(x, y)) == Xor(Half(x), Half(y))
  {
  }

  lemma XorOfLowBits(x: bv16, y: bv16)
    ensures LowBit(Xor(x, y)) <==> LowBit(x) != LowBit(y)
  {
  }

  lemma ShiftIsXor(r: bv16)
    ensures ShiftBit(r) == if LowBit(r) then Xor(Half(r), POLYNOMIAL) else Half(r)
  {
  }

  lemma XorCancels(x: bv16, y: bv16, p: bv16)
    ensures Xor(Xor(x, p), Xor(y, p)) == Xor(x, y)
  {
    hide Xor;
    XorCommutes(y, p);
    XorAssociates(Xor(x, p), p, y);
    XorUndoes(x, p);
  }

  lemma XorMovesOut(x: bv16, y: bv16, p: bv16)
    ensures Xor(Xor(x, p), y) == Xor(Xor(x, y), p)
    ensures Xor(x, Xor(y, p)) == Xor(Xor(x, y), p)
  {
    hide Xor;
    XorAssociates(x, p, y);
    XorAssociates(x, y, p);
    XorCommutes(p, y);
  }

  lemma ShiftBitLinear(x: bv16, y: bv16)
    ensures ShiftBit(Xor(x, y)) == Xor(ShiftBit(x), ShiftBit(y))
  {
    hide ShiftBit, Xor, Half, LowBit;
    ShiftIsXor(x);
    ShiftIsXor(y);
    ShiftIsXor(Xor(x, y));
    XorOfHalves(x, y);
    XorOfLowBits(x, y);
    XorCancels(Half(x), Half(y), POLYNOMIAL);
    XorMovesOut(Half(x), Half(y), POLYNOMIAL);
  }

  function ShiftNibble(r: bv16): bv16 {
    ShiftBit(ShiftBit(ShiftBit(ShiftBit(r))))
  }

  lemma ShiftNibbleLinear(x: bv16, y: bv16)
    ensures ShiftNibble(Xor(x, y)) == Xor(ShiftNibble(x), ShiftNibble(y))
  {
    hide ShiftBit, Xor;
    ShiftBitLinear(x, y);
    ShiftBitLinear(ShiftBit(x), ShiftBit(y));
    ShiftBitLinear(ShiftBit(ShiftBit(x)), ShiftBit(ShiftBit(y)));
    ShiftBitLinear(ShiftBit(ShiftBit(ShiftBit(x))), ShiftBit(ShiftBit(ShiftBit(y))));
  }

  lemma ShiftOctetLinear(x: bv16, y: bv16)
    ensures ShiftOctet(Xor(x, y)) == Xor(ShiftOctet(x), ShiftOctet(y))
  {
    hide ShiftBit, Xor;
    ShiftNibbleLinear(x, y);
    ShiftNibbleLinear(ShiftNibble(x), ShiftNibble(y));
  }

  // The high octet of a register only moves down during eight shifts.
  lemma ShiftOctetOfHigh(r: bv16)
    ensures ShiftOctet(r & 0xFF00) == r >> 8
  {
  }

  lemma SplitRegister(r: bv16, b: bv8)
    ensures Absorb(r, b) == Xor(r & 0xFF00, (LowOctet(r) ^ b) as bv16)
  {
  }

  // One table lookup does the eight shifts of the bit-serial register.
  lemma TableStepIsSerial(r: bv16, b: bv8)
    ensures TableStep(r, b) == OctetStep(r, b)
  {
    hide ShiftOctet, TableAt, Xor, Absorb, LowOctet;
    var i := LowOctet(r) ^ b;
    TableIsSerial(i);
    SplitRegister(r, b);
    ShiftOctetLinear(r & 0xFF00, i as bv16);
    ShiftOctetOfHigh(r);
  }

  /* ---- The closing octets ---- */

  // Feeding the complemented register, least significant octet first, always leaves the residue.
  lemma TrailerLeavesResidue(r: bv16)
    ensures OctetStep(OctetStep(r, LowOctet(Complement(r))), HighOctet(Complement(r))) == RESIDUE
  {
  }

  // No other pair of octets does.
  lemma OnlyTrailerLeavesResidue(r: bv16, a: bv8, b: bv8)
    requires OctetStep(OctetStep(r, a), b) == RESIDUE
    ensures a == LowOctet(Complement(r)) && b == HighOctet(Complement(r))
  {
  }

  // A body passes the receiver's check exactly when it is some payload followed by that payload's trailer.
  lemma PassesIffTrailer(p: seq<bv8>, a: bv8, b: bv8)
    ensures Passes(p + [a, b]) <==> [a, b] == Trailer(p)
  {
    hide OctetStep, LowOctet, HighOctet, Complement, Passes, FcsFrom;
    var r := FcsFrom(INITIAL, p);
    PassesIffResidue(p + [a, b]);
    FcsOfTwoMore(INITIAL, p, a, b);
    TrailerLeavesResidue(r);
    if Passes(p + [a, b]) {
      OnlyTrailerLeavesResidue(r, a, b);
    }
  }

  lemma FcsOfTwoMore(r: bv16, p: seq<bv8>, a: bv8, b: bv8)
    ensures FcsFrom(r, p + [a, b]) == OctetStep(OctetStep(FcsFrom(r, p), a), b)
  {
    hide OctetStep;
    var s := p + [a, b];
    assert s[..|s| - 1] == p + [a] && (p + [a])[..|p|] == p;
  }

  lemma PassesIffResidue(s: seq<bv8>)
    ensures Passes(s) <==> FcsFrom(INITIAL, s) == RESIDUE
  {
  }

  // Fewer than two octets never pass.
  lemma ShortNeverPasses(s: seq<bv8>)
    requires |s| < 2
    ensures !Passes(s)
  {
    if |s| == 1 {
      assert s[..0] == [] && FcsFrom(INITIAL, s[..0]) == INITIAL;
      OneOctetNeverPasses(s[0]);
      assert FcsFrom(INITIAL, s) == OctetStep(INITIAL, s[0]);
    }
  }

  lemma OneOctetNeverPasses(b: bv8)
    ensures Complement(OctetStep(INITIAL, b)) != GOOD_RESULT
  {
  }

  /** The object that accumulates the sequence, one octet at a time. */
  class FcsRegister {
    var fcs: bv16

    constructor ()
      ensures fcs == INITIAL
    {
      fcs := 0xFFFF;
    }

    method Write(b: bv8)
      modifies this
      ensures fcs == OctetStep(old(fcs), b)
    {
      hide TableStep, OctetStep;
      TableStepIsSerial(fcs, b);
      fcs := TableStep(fcs, b);
    }

    function Result(): bv16
      reads this
    {
      Complement(fcs)
    }

    method Clear()
      modifies this
      ensures fcs == INITIAL
    {
      fcs := 0xFFFF;
    }
  }
}
