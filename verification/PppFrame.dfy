/** Octet-stuffed frames: `ppp_frame` and `ppp_deframe`.

    A frame is a flag, the payload and its two closing octets with every flag and
    escape replaced by an escape pair (RFC 1662, section 4.2), and a flag.  The two
    methods are the program's loops; the functions say what they compute, and the
    lemmas relate the two directions. */
module PppFrame {
  import opened Fcs

  const FLAG: bv8 := 0x7E
  const ESC: bv8 := 0x7D
  const MASK: bv8 := 0x20

  /* ---- Sending ---- */

  function StuffOctet(c: bv8): seq<bv8> {
    if c == ESC || c == FLAG then [ESC, c ^ MASK] else [c]
  }

  function Stuff(s: seq<bv8>): seq<bv8> {
    if s == [] then [] else Stuff(s[..|s| - 1]) + StuffOctet(s[|s| - 1])
  }

  // What stands between the two flags.
  function Body(payload: seq<bv8>): seq<bv8> {
    Stuff(payload + Trailer(payload))
  }

  function Frame(payload: seq<bv8>): seq<bv8> {
    [FLAG] + Body(payload) + [FLAG]
  }

  lemma StuffOneMore(s: seq<bv8>, c: bv8)
    ensures Stuff(s + [c]) == Stuff(s) + StuffOctet(c)
  {
  }

  // In plain octets: the escape pairs, and nothing else is escaped.
  lemma StuffedExactly(s: seq<bv8>, c: bv8)
    ensures Stuff([]) == []
    ensures Stuff(s + [c]) == Stuff(s) + (if c == 0x7D then [0x7D, 0x5D] else if c == 0x7E then [0x7D, 0x5E] else [c])
  {
    StuffOneMore(s, c);
    assert ESC ^ MASK == 0x5D && FLAG ^ MASK == 0x5E;
  }

  method AddEscaped(out: seq<bv8>, c: bv8) returns (out': seq<bv8>)
    ensures out' == out + StuffOctet(c)
  {
    if c == ESC || c == FLAG {
      out' := out + [ESC];
      out' := out' + [c ^ MASK];
    } else {
      out' := out + [c];
    }
  }

  method BuildFrame(payload: seq<bv8>) returns (out: seq<bv8>)
    ensures out == Frame(payload)
  {
    hide OctetStep, StuffOctet, LowOctet, HighOctet, Complement, FcsFrom, Stuff, Frame;
    var fcs := new FcsRegister();
    out := [FLAG];
    assert payload[..0] == [];
    NothingYet();
    for i := 0 to |payload|
      invariant fcs.fcs == FcsFrom(INITIAL, payload[..i])
      invariant out == [FLAG] + Stuff(payload[..i])
    {
      assert payload[..i + 1] == payload[..i] + [payload[i]];
      StuffOneMore(payload[..i], payload[i]);
      FcsOneMore(INITIAL, payload[..i], payload[i]);
      out := AddEscaped(out, payload[i]);
      fcs.Write(payload[i]);
    }
    assert payload[..|payload|] == payload;
    FrameInSteps(payload);
    var low, high := LowOctet(fcs.Result()), HighOctet(fcs.Result());
    out := AddEscaped(out, low);
    out := AddEscaped(out, high);
    out := out + [FLAG];
  }

  lemma NothingYet()
    ensures Stuff([]) == [] && FcsFrom(INITIAL, []) == INITIAL
  {
  }

  lemma FrameInSteps(p: seq<bv8>)
    ensures var result := Complement(FcsFrom(INITIAL, p));
            Frame(p) == [FLAG] + Stuff(p) + StuffOctet(LowOctet(result)) + StuffOctet(HighOctet(result)) + [FLAG]
  {
    hide FcsFrom, StuffOctet, LowOctet, HighOctet, Complement, Stuff, Body;
    BodyInSteps(p);
    var result := Complement(FcsFrom(INITIAL, p));
    Reassociate([FLAG], Stuff(p), StuffOctet(LowOctet(result)), StuffOctet(HighOctet(result)));
  }

  lemma Reassociate(f: seq<bv8>, s: seq<bv8>, a: seq<bv8>, b: seq<bv8>)
    ensures f + s + a + b == f + (s + a + b)
  {
  }

  lemma BodyInSteps(p: seq<bv8>)
    ensures var result := Complement(FcsFrom(INITIAL, p));
            Body(p) == Stuff(p) + StuffOctet(LowOctet(result)) + StuffOctet(HighOctet(result))
  {
    hide FcsFrom, StuffOctet, LowOctet, HighOctet, Complement;
    var t := Trailer(p);
    StuffOneMore(p, t[0]);
    StuffOneMore(p + [t[0]], t[1]);
    assert p + [t[0]] + [t[1]] == p + t;
  }

  lemma FcsOneMore(r: bv16, s: seq<bv8>, c: bv8)
    ensures FcsFrom(r, s + [c]) == OctetStep(FcsFrom(r, s), c)
  {
  }

  /* ---- Receiving ---- */

  // The octets recovered so far, and whether an escape is waiting for its octet.
  datatype Scan = Scan(octets: seq<bv8>, escaped: bool)

  function ScanOctet(scan: Scan, c: bv8): Scan {
    if c == ESC then Scan(scan.octets, true)
    else if scan.escaped then Scan(scan.octets + [c ^ MASK], false)
    else Scan(scan.octets + [c], false)
  }

  function Unstuff(s: seq<bv8>): Scan {
    if s == [] then Scan([], false) else ScanOctet(Unstuff(s[..|s| - 1]), s[|s| - 1])
  }

  // Vector pop_back.  On an empty vector the program's behaviour is undefined; here nothing happens.
  function PopBack(s: seq<bv8>): seq<bv8> {
    if s == [] then [] else s[..|s| - 1]
  }

  datatype Deframed = Deframed(ok: bool, out: seq<bv8>)

  function Deframe(body: seq<bv8>): Deframed {
    if |body| < 3 then Deframed(false, [])
    else if FLAG in body then Deframed(false, Unstuff(BeforeFlag(body)).octets)
    else
      var scan := Unstuff(body);
      Deframed(!scan.escaped && Passes(scan.octets), PopBack(PopBack(scan.octets)))
  }

  function BeforeFlag(body: seq<bv8>): (head: seq<bv8>)
    ensures FLAG !in head && head <= body
    ensures FLAG in body ==> |head| < |body| && body[|head|] == FLAG
    ensures FLAG !in body ==> head == body
  {
    if body == [] || body[0] == FLAG then [] else [body[0]] + BeforeFlag(body[1..])
  }

  lemma {:induction false} BeforeFlagUnique(body: seq<bv8>, i: nat)
    requires i < |body| && body[i] == FLAG && FLAG !in body[..i]
    ensures BeforeFlag(body) == body[..i]
  {
  }

  method ExtractPayload(body: seq<bv8>) returns (ok: bool, out: seq<bv8>)
    ensures Deframed(ok, out) == Deframe(body)
  {
    hide OctetStep, Complement, FcsFrom, Unstuff;
    out := [];
    var escFlag := false;
    var fcs := new FcsRegister();
    if |body| < 3 {
      return false, out;
    }
    var count := 0;
    NothingScanned();
    while count < |body|
      invariant 0 <= count <= |body|
      invariant FLAG !in body[..count]
      invariant Scan(out, escFlag) == Unstuff(body[..count])
      invariant fcs.fcs == FcsFrom(INITIAL, out)
    {
      var c := body[count];
      assert body[..count + 1] == body[..count] + [c];
      UnstuffOneMore(body[..count], c);
      if c == ESC {
        escFlag := true;
      } else if c == FLAG {
        BeforeFlagUnique(body, count);
        return false, out;
      } else if escFlag {
        FcsOneMore(INITIAL, out, c ^ MASK);
        out := out + [c ^ MASK];
        fcs.Write(c ^ MASK);
        escFlag := false;
      } else {
        FcsOneMore(INITIAL, out, c);
        fcs.Write(c);
        out := out + [c];
      }
      count := count + 1;
    }
    assert body[..|body|] == body;
    var fcsCheck := fcs.Result() == 0x0F47;
    out := PopBack(out);
    out := PopBack(out);
    ok := !escFlag && fcsCheck;
  }

  lemma NothingScanned()
    ensures Unstuff([]) == Scan([], false) && FcsFrom(INITIAL, []) == INITIAL
  {
  }

  lemma UnstuffOneMore(s: seq<bv8>, c: bv8)
    ensures Unstuff(s + [c]) == ScanOctet(Unstuff(s), c)
  {
  }

  /* ---- What acceptance means ---- */

  // p is what a frame body carries: its octets, unstuffed, are p followed by p's two closing octets.
  predicate Carries(body: seq<bv8>, p: seq<bv8>) {
    && |body| >= 3
    && FLAG !in body
    && Unstuff(body) == Scan(p + Trailer(p), false)
  }

  lemma AcceptedCarries(body: seq<bv8>)
    requires Deframe(body).ok
    ensures Carries(body, Deframe(body).out)
  {
    hide Passes, Unstuff, Trailer, BeforeFlag;
    var s := Unstuff(body).octets;
    if |s| < 2 {
      ShortNeverPasses(s);
    } else {
      var p := s[..|s| - 2];
      assert s == p + [s[|s| - 2], s[|s| - 1]];
      assert PopBack(PopBack(s)) == p;
      PassesIffTrailer(p, s[|s| - 2], s[|s| - 1]);
    }
  }

  lemma CarriedIsAccepted(body: seq<bv8>, p: seq<bv8>)
    requires Carries(body, p)
    ensures Deframe(body) == Deframed(true, p)
  {
    hide Passes, Unstuff, BeforeFlag, LowOctet, HighOctet, FcsFrom;
    var t := Trailer(p);
    assert t == [t[0], t[1]];
    PassesIffTrailer(p, t[0], t[1]);
    assert PopBack(p + t) == p + [t[0]];
    assert PopBack(p + [t[0]]) == p;
  }

  // The receiver accepts exactly the bodies that carry a payload, and returns that payload.
  lemma DeframeExactly(body: seq<bv8>, p: seq<bv8>)
    ensures Deframe(body) == Deframed(true, p) <==> Carries(body, p)
  {
    hide Carries, Deframe;
    if Deframe(body).ok {
      AcceptedCarries(body);
    }
    if Carries(body, p) {
      CarriedIsAccepted(body, p);
    }
  }

  // A body with a flag is refused there, with what was unstuffed before the flag left in the output.
  lemma RefusedAtFlag(body: seq<bv8>, i: nat)
    requires i < |body| && |body| >= 3 && body[i] == FLAG && FLAG !in body[..i]
    ensures Deframe(body) == Deframed(false, Unstuff(body[..i]).octets)
  {
    BeforeFlagUnique(body, i);
    hide Unstuff, Passes;
  }

  /* ---- Round trip ---- */

  lemma StuffedOctet(c: bv8, scan: Scan)
    requires !scan.escaped
    ensures FLAG !in StuffOctet(c) && 1 <= |StuffOctet(c)| <= 2
    ensures Unstuff'(scan, StuffOctet(c)) == Scan(scan.octets + [c], false)
  {
  }

  // Scanning a stuffed octet: one or two steps.
  function Unstuff'(scan: Scan, s: seq<bv8>): Scan
    requires 1 <= |s| <= 2
  {
    if |s| == 1 then ScanOctet(scan, s[0]) else ScanOctet(ScanOctet(scan, s[0]), s[1])
  }

  lemma UnstuffTwoMore(s: seq<bv8>, t: seq<bv8>)
    requires 1 <= |t| <= 2
    ensures Unstuff(s + t) == Unstuff'(Unstuff(s), t)
  {
    hide ScanOctet, Unstuff;
    UnstuffOneMore(s, t[0]);
    if |t| == 1 {
      assert t == [t[0]];
    } else {
      assert s + t == s + [t[0]] + [t[1]];
      UnstuffOneMore(s + [t[0]], t[1]);
    }
  }

  lemma {:induction false} UnstuffStuff(s: seq<bv8>)
    ensures FLAG !in Stuff(s)
    ensures Unstuff(Stuff(s)) == Scan(s, false)
    ensures |Stuff(s)| >= |s|
  {
    hide StuffOctet, ScanOctet, Unstuff';
    if s != [] {
      var n := |s| - 1;
      UnstuffStuff(s[..n]);
      StuffedOctet(s[n], Unstuff(Stuff(s[..n])));
      UnstuffTwoMore(Stuff(s[..n]), StuffOctet(s[n]));
      assert s[..n] + [s[n]] == s;
    }
  }

  lemma BodyCarries(p: seq<bv8>)
    requires p != []
    ensures Carries(Body(p), p)
  {
    hide Unstuff, Stuff;
    UnstuffStuff(p + Trailer(p));
  }

  // Every non-empty payload comes back from its frame.
  lemma RoundTrip(p: seq<bv8>)
    requires p != []
    ensures FLAG !in Body(p)
    ensures Deframe(Body(p)) == Deframed(true, p)
  {
    BodyCarries(p);
    CarriedIsAccepted(Body(p), p);
  }

  // The empty payload does not: its body is the two closing octets, and the receiver wants three.
  lemma RoundTripIffNonEmpty(p: seq<bv8>)
    ensures Deframe(Body(p)) == Deframed(true, p) <==> p != []
  {
    if p == [] {
      EmptyBody();
    } else {
      RoundTrip(p);
    }
  }

  lemma EmptyBody()
    ensures Body([]) == [0, 0]
  {
    assert LowOctet(Complement(INITIAL)) == 0 && HighOctet(Complement(INITIAL)) == 0 && StuffOctet(0) == [0];
    hide LowOctet, HighOctet, Complement, StuffOctet, Body;
    NothingYet();
    BodyInSteps([]);
  }

  // Distinct payloads have distinct frames.
  lemma FrameInjective(p: seq<bv8>, q: seq<bv8>)
    requires Frame(p) == Frame(q)
    ensures p == q
  {
    hide Stuff, Unstuff, Trailer;
    var f := Frame(p);
    assert f[1..|f| - 1] == Body(p) && f[1..|f| - 1] == Body(q);
    var s, t := p + Trailer(p), q + Trailer(q);
    UnstuffStuff(s);
    UnstuffStuff(t);
    assert s == t;
    TrailerLength(p);
    TrailerLength(q);
    assert s[..|s| - 2] == p && t[..|t| - 2] == q;
  }

  lemma TrailerLength(p: seq<bv8>)
    ensures |Trailer(p)| == 2
  {
  }

  /* ---- The two closing octets are removed even when they are not there ---- */

  function OctetsOtherThanEscape(s: seq<bv8>): nat {
    if s == [] then 0
    else OctetsOtherThanEscape(s[..|s| - 1]) + (if s[|s| - 1] == ESC then 0 else 1)
  }

  lemma {:induction false} UnstuffedLength(s: seq<bv8>)
    ensures |Unstuff(s).octets| == OctetsOtherThanEscape(s)
  {
    if s != [] {
      UnstuffedLength(s[..|s| - 1]);
    }
  }

  // The program pops two octets it may not have.
  predicate PopsFromEmpty(body: seq<bv8>) {
    |body| >= 3 && FLAG !in body && |Unstuff(body).octets| < 2
  }

  // It does so exactly on flag-free bodies of three octets or more that are escapes but for at most one octet;
  // such a body is rejected by the check in any case.
  lemma PopsFromEmptyExactly(body: seq<bv8>)
    ensures PopsFromEmpty(body) <==> |body| >= 3 && FLAG !in body && OctetsOtherThanEscape(body) < 2
    ensures PopsFromEmpty(body) ==> !Deframe(body).ok
  {
    hide Passes, Unstuff;
    UnstuffedLength(body);
    if PopsFromEmpty(body) {
      ShortNeverPasses(Unstuff(body).octets);
    }
  }

  lemma ThreeEscapesPopFromEmpty()
    ensures PopsFromEmpty([ESC, ESC, ESC])
  {
    PopsFromEmptyExactly([ESC, ESC, ESC]);
    assert OctetsOtherThanEscape([ESC]) == 0;
    assert [ESC, ESC][..1] == [ESC];
    assert [ESC, ESC, ESC][..2] == [ESC, ESC];
  }
}
