/** What corruption of an accepted frame body the receiver detects.

    A body travels stuffed.  Corruption that leaves the escapes where they are moves
    into the unstuffed octets, where the frame check sequence detects it.  Corruption
    that makes an escape, or unmakes one, shifts everything behind it, and may pass. */
module LinkIntegrity {
  import opened Fcs
  import opened FcsDetection
  import opened PppFrame

  /* ---- Corruption seen after unstuffing ---- */

  // Sequences of bits that differ at most from lo up to hi.
  predicate ApartWithin(a: seq<bool>, b: seq<bool>, lo: nat, hi: nat) {
    |a| == |b| && forall i :: 0 <= i < |a| && !(lo <= i < hi) ==> a[i] == b[i]
  }

  // Octets of equal number that differ, and only within sixteen consecutive bits.
  predicate BurstApart(x: seq<bv8>, y: seq<bv8>, start: nat) {
    |x| == |y| && x != y && ApartWithin(Bits(x), Bits(y), start, start + 16)
  }

  predicate OddApart(x: seq<bv8>, y: seq<bv8>) {
    |x| == |y| && Differences(Bits(x), Bits(y)) % 2 == 1
  }

  lemma AcceptedPasses(body: seq<bv8>)
    ensures Deframe(body).ok ==> Passes(Unstuff(body).octets)
  {
  }

  // If a body is accepted, no body whose unstuffed octets are a burst of at most sixteen bits away from its own,
  // or an odd number of bits, is.
  lemma CorruptionRejected(body: seq<bv8>, corrupted: seq<bv8>, start: nat)
    requires Deframe(body).ok
    requires var x, y := Unstuff(body).octets, Unstuff(corrupted).octets;
             BurstApart(x, y, start) || OddApart(x, y)
    ensures !Deframe(corrupted).ok
  {
    hide Passes, Unstuff, Deframe, Bits, Differences;
    AcceptedPasses(body);
    AcceptedPasses(corrupted);
    var x, y := Unstuff(body).octets, Unstuff(corrupted).octets;
    if BurstApart(x, y, start) {
      BurstDetected(x, y, start);
    } else {
      OddErrorsDetected(x, y);
    }
  }

  /* ---- Corruption of the body itself ---- */

  predicate SameEscapes(x: seq<bv8>, y: seq<bv8>) {
    |x| == |y| && forall i :: 0 <= i < |x| ==> (x[i] == ESC <==> y[i] == ESC)
  }

  // Where bit k of a body stands among its unstuffed bits: escapes take no room.
  function Place(x: seq<bv8>, k: nat): nat
    requires k <= 8 * |x|
  {
    if x == [] then 0
    else
      var n := |x| - 1;
      if k <= 8 * n then Place(x[..n], k)
      else Place(x[..n], 8 * n) + (if x[n] == ESC then 0 else k - 8 * n)
  }

  lemma {:induction false} PlaceEnd(x: seq<bv8>)
    ensures Place(x, 8 * |x|) == 8 * |Unstuff(x).octets|
  {
    if x != [] {
      PlaceEnd(x[..|x| - 1]);
    }
  }

  // Unstuffing moves bits closer together, never further apart.
  lemma {:induction false} PlacesShrink(x: seq<bv8>, lo: nat, hi: nat)
    requires lo <= hi <= 8 * |x|
    ensures Place(x, lo) <= Place(x, hi) <= Place(x, lo) + (hi - lo)
  {
    if x != [] {
      var n := |x| - 1;
      if lo <= 8 * n {
        PlacesShrink(x[..n], lo, if hi <= 8 * n then hi else 8 * n);
      }
    }
  }

  lemma {:induction false} UnstuffAligned(x: seq<bv8>, y: seq<bv8>)
    requires SameEscapes(x, y)
    ensures |Unstuff(x).octets| == |Unstuff(y).octets| && Unstuff(x).escaped == Unstuff(y).escaped
  {
    if x != [] {
      UnstuffAligned(x[..|x| - 1], y[..|y| - 1]);
    }
  }

  // Masking both of two octets keeps their differences.
  lemma MaskKeepsDifferences(c: bv8, d: bv8, j: nat)
    requires j < 8
    ensures OctetBits(c ^ MASK)[j] == OctetBits(d ^ MASK)[j] <==> OctetBits(c)[j] == OctetBits(d)[j]
  {
    MaskFlipsOneBit(c);
    MaskFlipsOneBit(d);
    hide OctetBits;
  }

  lemma MaskFlipsOneBit(c: bv8)
    ensures OctetBits(c ^ MASK) == OctetBits(c)[5 := !OctetBits(c)[5]]
  {
    assert (c ^ MASK) & 1 == c & 1 && (c ^ MASK) & 2 == c & 2 && (c ^ MASK) & 4 == c & 4 && (c ^ MASK) & 8 == c & 8;
    assert (c ^ MASK) & 16 == c & 16 && (c ^ MASK) & 64 == c & 64 && (c ^ MASK) & 128 == c & 128;
    assert (c ^ MASK) & 32 != 0 <==> c & 32 == 0;
  }

  // The octet that x[n] adds to the unstuffed ones, if it is no escape.
  function Added(before: Scan, c: bv8): bv8 {
    if before.escaped then c ^ MASK else c
  }

  lemma AddedBits(before: Scan, before': Scan, c: bv8, d: bv8)
    requires before.escaped == before'.escaped
    ensures forall j :: 0 <= j < 8 ==>
              (OctetBits(Added(before, c))[j] == OctetBits(Added(before', d))[j] <==>
               OctetBits(c)[j] == OctetBits(d)[j])
  {
    hide OctetBits;
    forall j | 0 <= j < 8
      ensures OctetBits(Added(before, c))[j] == OctetBits(Added(before', d))[j] <==> OctetBits(c)[j] == OctetBits(d)[j]
    {
      MaskKeepsDifferences(c, d, j);
    }
  }

  lemma UnstuffLast(x: seq<bv8>)
    requires x != []
    ensures Unstuff(x) == ScanOctet(Unstuff(x[..|x| - 1]), x[|x| - 1])
  {
  }

  lemma ScanAdds(before: Scan, c: bv8)
    ensures ScanOctet(before, c).octets == if c == ESC then before.octets else before.octets + [Added(before, c)]
  {
  }

  lemma BitsOfOneMore(s: seq<bv8>, c: bv8)
    ensures Bits(s + [c]) == Bits(s) + OctetBits(c)
  {
    hide OctetBits;
    assert (s + [c])[..|s|] == s;
  }

  // Bits that stand behind at others, and differ at most inside the window.
  predicate SameOutside(u: seq<bool>, v: seq<bool>, at: nat, lo: nat, hi: nat)
    requires |u| == |v|
  {
    forall j :: 0 <= j < |u| && !(lo <= at + j < hi) ==> u[j] == v[j]
  }

  lemma SplitWindow(a: seq<bool>, b: seq<bool>, u: seq<bool>, v: seq<bool>, lo: nat, hi: nat)
    requires |a| == |b| && |u| == |v| && ApartWithin(a + u, b + v, lo, hi)
    ensures ApartWithin(a, b, lo, hi)
    ensures SameOutside(u, v, |a|, lo, hi)
  {
    assert forall i :: 0 <= i < |a| ==> (a + u)[i] == a[i] && (b + v)[i] == b[i];
    assert forall j :: 0 <= j < |u| ==> (a + u)[|a| + j] == u[j] && (b + v)[|a| + j] == v[j];
  }

  lemma JoinWindow(a: seq<bool>, b: seq<bool>, u: seq<bool>, v: seq<bool>, lo: nat, hi: nat)
    requires |u| == |v| && ApartWithin(a, b, lo, hi)
    requires SameOutside(u, v, |a|, lo, hi)
    ensures ApartWithin(a + u, b + v, lo, hi)
  {
  }

  lemma WiderWindow(a: seq<bool>, b: seq<bool>, lo: nat, hi: nat, lo': nat, hi': nat)
    requires ApartWithin(a, b, lo, hi)
    requires hi <= lo || |a| <= lo || (lo' <= lo && (hi <= hi' || |a| <= hi'))
    ensures ApartWithin(a, b, lo', hi')
  {
  }

  function Min(a: nat, b: nat): nat {
    if a <= b then a else b
  }

  lemma PlaceLast(x: seq<bv8>, k: nat)
    requires x != [] && k <= 8 * |x|
    ensures var n := |x| - 1;
            Place(x, k) == Place(x[..n], Min(k, 8 * n)) + (if k <= 8 * n || x[n] == ESC then 0 else k - 8 * n)
    ensures Place(x[..|x| - 1], 8 * (|x| - 1)) == 8 * |Unstuff(x[..|x| - 1]).octets|
  {
    PlaceEnd(x[..|x| - 1]);
  }

  // What one more octet adds, on both sides, to octets that differ within a window.
  lemma OctetMoves(s: Scan, t: Scan, c: bv8, d: bv8, lo: nat, hi: nat)
    requires s.escaped == t.escaped && (c == ESC <==> d == ESC)
    requires ApartWithin(Bits(s.octets), Bits(t.octets), lo, hi)
    requires c != ESC ==> SameOutside(OctetBits(c), OctetBits(d), 8 * |s.octets|, lo, hi)
    ensures ApartWithin(Bits(ScanOctet(s, c).octets), Bits(ScanOctet(t, d).octets), lo, hi)
  {
    ScanAdds(s, c);
    ScanAdds(t, d);
    AddedBits(s, t, c, d);
    BitsOfOneMore(s.octets, Added(s, c));
    BitsOfOneMore(t.octets, Added(t, d));
    hide OctetBits, Bits, Added, ScanOctet, ApartWithin;
    if c != ESC {
      JoinWindow(Bits(s.octets), Bits(t.octets), OctetBits(Added(s, c)), OctetBits(Added(t, d)), lo, hi);
    }
  }

  lemma BitsLast(x: seq<bv8>)
    requires x != []
    ensures Bits(x) == Bits(x[..|x| - 1]) + OctetBits(x[|x| - 1])
  {
    hide OctetBits;
  }

  // Of a window, the part before the last octet.
  lemma WindowOfHead(x: seq<bv8>, y: seq<bv8>, lo: nat, hi: nat)
    requires x != [] && |x| == |y| && ApartWithin(Bits(x), Bits(y), lo, hi)
    ensures var n := |x| - 1;
            && ApartWithin(Bits(x[..n]), Bits(y[..n]), Min(lo, 8 * n), Min(hi, 8 * n))
            && SameOutside(OctetBits(x[n]), OctetBits(y[n]), 8 * n, lo, hi)
  {
    var n := |x| - 1;
    BitsLast(x);
    BitsLast(y);
    hide OctetBits, Bits, ApartWithin;
    SplitWindow(Bits(x[..n]), Bits(y[..n]), OctetBits(x[n]), OctetBits(y[n]), lo, hi);
    WiderWindow(Bits(x[..n]), Bits(y[..n]), lo, hi, Min(lo, 8 * n), Min(hi, 8 * n));
  }

  // The window of the unstuffed octets before the last one, as part of the whole window.
  lemma WindowOfWhole(x: seq<bv8>, a: seq<bool>, b: seq<bool>, lo: nat, hi: nat)
    requires x != [] && lo <= hi <= 8 * |x|
    requires var n := |x| - 1;
             && |a| == 8 * |Unstuff(x[..n]).octets|
             && ApartWithin(a, b, Place(x[..n], Min(lo, 8 * n)), Place(x[..n], Min(hi, 8 * n)))
    ensures ApartWithin(a, b, Place(x, lo), Place(x, hi))
  {
    var n := |x| - 1;
    PlaceLast(x, lo);
    PlaceLast(x, hi);
    PlacesShrink(x[..n], Min(lo, 8 * n), Min(hi, 8 * n));
    hide Place, Unstuff, ApartWithin;
    SameLength(a, b, Place(x[..n], Min(lo, 8 * n)), Place(x[..n], Min(hi, 8 * n)));
    WiderWindow(a, b, Place(x[..n], Min(lo, 8 * n)), Place(x[..n], Min(hi, 8 * n)), Place(x, lo), Place(x, hi));
  }

  // Behind the octets before, the last one, if it is no escape, has the same part of the window as before.
  lemma PlaceInLast(x: seq<bv8>, u: seq<bool>, v: seq<bool>, lo: nat, hi: nat)
    requires x != [] && lo <= hi <= 8 * |x| && x[|x| - 1] != ESC
    requires |u| == |v| && SameOutside(u, v, 8 * (|x| - 1), lo, hi)
    ensures SameOutside(u, v, 8 * |Unstuff(x[..|x| - 1]).octets|, Place(x, lo), Place(x, hi))
  {
    var n := |x| - 1;
    PlaceLast(x, lo);
    PlaceLast(x, hi);
    PlacesShrink(x[..n], Min(lo, 8 * n), 8 * n);
    hide Place, Unstuff;
  }

  lemma HeadsAligned(x: seq<bv8>, y: seq<bv8>)
    requires SameEscapes(x, y) && x != []
    ensures |x| == |y|
    ensures var n := |x| - 1;
            SameEscapes(x[..n], y[..n]) && (x[n] == ESC <==> y[n] == ESC)
            && Unstuff(x[..n]).escaped == Unstuff(y[..n]).escaped
  {
    hide Unstuff;
    UnstuffAligned(x[..|x| - 1], y[..|x| - 1]);
  }

  // Bodies that differ within a window, their escapes in the same places, are unstuffed to octets
  // that differ within the window moved to its new place.
  lemma {:induction false} WindowMoves(x: seq<bv8>, y: seq<bv8>, lo: nat, hi: nat)
    requires SameEscapes(x, y) && lo <= hi <= 8 * |x| && ApartWithin(Bits(x), Bits(y), lo, hi)
    ensures ApartWithin(Bits(Unstuff(x).octets), Bits(Unstuff(y).octets), Place(x, lo), Place(x, hi))
  {
    if x != [] {
      hide SameEscapes, OctetBits, Unstuff, Bits, Place, ApartWithin;
      var n := |x| - 1;
      HeadsAligned(x, y);
      WindowOfHead(x, y, lo, hi);
      WindowMoves(x[..n], y[..n], Min(lo, 8 * n), Min(hi, 8 * n));
      WindowOfWhole(x, Bits(Unstuff(x[..n]).octets), Bits(Unstuff(y[..n]).octets), lo, hi);
      if x[n] != ESC {
        PlaceInLast(x, OctetBits(x[n]), OctetBits(y[n]), lo, hi);
      }
      UnstuffLast(x);
      UnstuffLast(y);
      hide ScanOctet, SameOutside;
      OctetMoves(Unstuff(x[..n]), Unstuff(y[..n]), x[n], y[n], Place(x, lo), Place(x, hi));
    }
  }

  lemma SameLength(a: seq<bool>, b: seq<bool>, lo: nat, hi: nat)
    requires ApartWithin(a, b, lo, hi)
    ensures |a| == |b|
  {
  }

  lemma {:induction false} DifferencesConcat(a: seq<bool>, b: seq<bool>, u: seq<bool>, v: seq<bool>)
    requires |a| == |b| && |u| == |v|
    ensures Differences(a + u, b + v) == Differences(a, b) + Differences(u, v)
  {
    if u == [] {
      assert a + u == a && b + v == b;
    } else {
      var n := |u| - 1;
      assert (a + u)[..|a + u| - 1] == a + u[..n] && (b + v)[..|b + v| - 1] == b + v[..n];
      DifferencesConcat(a, b, u[..n], v[..n]);
    }
  }

  lemma {:induction false} SameDifferences(a: seq<bool>, b: seq<bool>, u: seq<bool>, v: seq<bool>)
    requires |a| == |b| == |u| == |v|
    requires forall i :: 0 <= i < |a| ==> (a[i] == b[i] <==> u[i] == v[i])
    ensures Differences(a, b) == Differences(u, v)
  {
    if a != [] {
      var n := |a| - 1;
      SameDifferences(a[..n], b[..n], u[..n], v[..n]);
    }
  }

  lemma {:induction false} NoDifferences(a: seq<bool>, b: seq<bool>)
    requires |a| == |b|
    ensures Differences(a, b) == 0 <==> a == b
  {
    if a != [] {
      var n := |a| - 1;
      NoDifferences(a[..n], b[..n]);
      assert a == a[..n] + [a[n]] && b == b[..n] + [b[n]];
    }
  }

  // One more octet adds as many differences as it has.
  lemma OctetDiffers(s: Scan, t: Scan, c: bv8, d: bv8)
    requires s.escaped == t.escaped && |s.octets| == |t.octets| && (c == ESC <==> d == ESC)
    ensures |ScanOctet(s, c).octets| == |ScanOctet(t, d).octets|
    ensures Differences(Bits(ScanOctet(s, c).octets), Bits(ScanOctet(t, d).octets))
         == Differences(Bits(s.octets), Bits(t.octets)) + Differences(OctetBits(c), OctetBits(d))
  {
    ScanAdds(s, c);
    ScanAdds(t, d);
    AddedBits(s, t, c, d);
    BitsOfOneMore(s.octets, Added(s, c));
    BitsOfOneMore(t.octets, Added(t, d));
    hide OctetBits, Bits, Added, ScanOctet, Differences;
    if c == ESC {
      NoDifferences(OctetBits(c), OctetBits(d));
    } else {
      var u, v := OctetBits(Added(s, c)), OctetBits(Added(t, d));
      DifferencesConcat(Bits(s.octets), Bits(t.octets), u, v);
      SameDifferences(u, v, OctetBits(c), OctetBits(d));
    }
  }

  // Unstuffing neither loses nor adds differences, as long as the escapes are in the same places.
  lemma {:induction false} DifferencesMove(x: seq<bv8>, y: seq<bv8>)
    requires SameEscapes(x, y)
    ensures |Unstuff(x).octets| == |Unstuff(y).octets|
    ensures Differences(Bits(Unstuff(x).octets), Bits(Unstuff(y).octets)) == Differences(Bits(x), Bits(y))
  {
    if x != [] {
      hide SameEscapes, OctetBits, Unstuff, Bits, Differences, ScanOctet;
      var n := |x| - 1;
      HeadsAligned(x, y);
      UnstuffLast(x);
      UnstuffLast(y);
      BitsLast(x);
      BitsLast(y);
      DifferencesMove(x[..n], y[..n]);
      DifferencesConcat(Bits(x[..n]), Bits(y[..n]), OctetBits(x[n]), OctetBits(y[n]));
      OctetDiffers(Unstuff(x[..n]), Unstuff(y[..n]), x[n], y[n]);
    }
  }

  lemma DifferentUnstuffed(x: seq<bv8>, y: seq<bv8>)
    requires SameEscapes(x, y) && x != y
    ensures Unstuff(x).octets != Unstuff(y).octets
  {
    hide Unstuff, Bits, Differences;
    DifferencesMove(x, y);
    NoDifferences(Bits(x), Bits(y));
    NoDifferences(Bits(Unstuff(x).octets), Bits(Unstuff(y).octets));
    if Bits(x) == Bits(y) {
      BitsInjective(x, y);
    }
  }

  // If a body is accepted, no body a burst of at most sixteen bits away from it as it travels, or an odd number of
  // bits, is, as long as its escapes are in the same places.
  lemma WireCorruptionRejected(body: seq<bv8>, corrupted: seq<bv8>, start: nat)
    requires Deframe(body).ok && SameEscapes(body, corrupted)
    requires BurstApart(body, corrupted, start) || OddApart(body, corrupted)
    ensures !Deframe(corrupted).ok
  {
    hide Unstuff, Deframe, Bits, Differences, Place;
    DifferencesMove(body, corrupted);
    if BurstApart(body, corrupted, start) {
      var end := 8 * |body|;
      var lo, hi := if start <= end then start else end, if start + 16 <= end then start + 16 else end;
      WiderWindow(Bits(body), Bits(corrupted), start, start + 16, lo, hi);
      WindowMoves(body, corrupted, lo, hi);
      PlacesShrink(body, lo, hi);
      DifferentUnstuffed(body, corrupted);
      var x, y := Unstuff(body).octets, Unstuff(corrupted).octets;
      var at := Place(body, lo);
      WiderWindow(Bits(x), Bits(y), at, Place(body, hi), at, at + 16);
      assert BurstApart(x, y, at);
      CorruptionRejected(body, corrupted, at);
    } else {
      CorruptionRejected(body, corrupted, start);
    }
  }
}
