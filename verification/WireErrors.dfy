/** Corruption on the wire, as the receiver hears it.

    The receiver cuts what arrives at every flag, so a flag made by corruption splits a
    frame in two, and the front part may be emitted.  This module says which corruption
    of a frame between its flags is sure to be met with silence. */
module WireErrors {
  import opened Fcs
  import opened PppFrame
  import opened Deframer
  import opened LinkIntegrity
  import opened EscapeErrors

  function Framed(body: seq<bv8>): seq<bv8> {
    [FLAG] + body + [FLAG]
  }

  // Whatever the receiver has collected: beyond what the opening flag closes, it emits nothing.
  ghost predicate Silent(body: seq<bv8>) {
    forall r: Receiver, times: seq<nat> ::
      FLAG !in r.inputFrame && |times| == |Framed(body)|
      ==> OnOctets(r, Framed(body), times).emitted == OnFrame(r).emitted
  }

  // Between the flags, each segment that is accepted is emitted.
  lemma FramedEmits(r: Receiver, body: seq<bv8>, segments: seq<seq<bv8>>, tail: seq<bv8>, times: seq<nat>)
    requires FLAG !in r.inputFrame && |times| == |Framed(body)|
    requires FlagFree(segments) && FLAG !in tail && body == Join(segments) + tail
    ensures OnOctets(r, Framed(body), times).emitted == OnFrame(r).emitted + Payloads(segments + [tail])
  {
    FirstSegment(r);
    var more := segments + [tail];
    OneSegment(tail);
    JoinConcat(segments, [tail]);
    JoinConcat([r.inputFrame], more);
    PayloadsConcat([r.inputFrame], more);
    hide Join, Payloads, OnFrame, OnOctets, Deframe;
    WholeStream(r.inputFrame, body, Join(segments), tail);
    EmitsSegments(r, Framed(body), times, [r.inputFrame] + more, []);
    Associate(r.emitted, Payloads([r.inputFrame]), Payloads(more));
  }

  lemma OneSegment(s: seq<bv8>)
    ensures Join([s]) == s + [FLAG]
    ensures Payloads([s]) == if Deframe(s).ok then [Deframe(s).out] else []
  {
    hide Deframe;
    assert [s][..0] == [];
    assert Join([]) == [] && Payloads([]) == [];
  }

  lemma FirstSegment(r: Receiver)
    ensures Join([r.inputFrame]) == r.inputFrame + [FLAG]
    ensures OnFrame(r).emitted == r.emitted + Payloads([r.inputFrame])
  {
    OneSegment(r.inputFrame);
    NothingFromNothing();
    hide Deframe, Join, Payloads;
  }

  lemma WholeStream(collected: seq<bv8>, body: seq<bv8>, joined: seq<bv8>, tail: seq<bv8>)
    requires body == joined + tail
    ensures collected + Framed(body) == (collected + [FLAG]) + (joined + (tail + [FLAG])) + []
  {
  }

  // A body without a flag is met with silence exactly when the frame check rejects it.
  lemma SilentIffRejected(body: seq<bv8>)
    requires FLAG !in body
    ensures Silent(body) <==> !Deframe(body).ok
  {
    OneSegment(body);
    assert Join([]) == [];
    hide Deframe, Join, Payloads, OnFrame, OnOctets;
    assert [] + [body] == [body] && [] + body == body;
    forall r: Receiver, times: seq<nat> | FLAG !in r.inputFrame && |times| == |Framed(body)|
      ensures OnOctets(r, Framed(body), times).emitted == OnFrame(r).emitted + Payloads([body])
    {
      FramedEmits(r, body, [], body, times);
    }
    if Deframe(body).ok {
      var r, times := Receiver([], [], 0, []), seq(|Framed(body)|, _ => 0);
      assert |OnOctets(r, Framed(body), times).emitted| == |OnFrame(r).emitted| + 1;
    }
  }

  // If a frame is accepted, nothing is emitted for one that differs from it between the flags by a burst of at most
  // sixteen bits, or by an odd number of bits, as long as its escapes are in the same places and it holds no flag.
  lemma WireCorruptionSilent(body: seq<bv8>, corrupted: seq<bv8>, start: nat)
    requires Deframe(body).ok && SameEscapes(body, corrupted) && FLAG !in corrupted
    requires BurstApart(body, corrupted, start) || OddApart(body, corrupted)
    ensures Silent(corrupted)
  {
    hide Deframe, Silent, BurstApart, OddApart;
    WireCorruptionRejected(body, corrupted, start);
    SilentIffRejected(corrupted);
  }

  /* ---- A flag made ---- */

  lemma {:induction false} StuffConcat(a: seq<bv8>, b: seq<bv8>)
    ensures Stuff(a + b) == Stuff(a) + Stuff(b)
  {
    hide StuffOctet;
    if b == [] {
      assert a + b == a;
    } else {
      var n := |b| - 1;
      assert a + b == a + b[..n] + [b[n]];
      StuffConcat(a, b[..n]);
      StuffOneMore(a + b[..n], b[n]);
    }
  }

  // The payload p followed by its own closing octets and one octet more.
  function Longer(p: seq<bv8>, c: bv8): seq<bv8> {
    p + Trailer(p) + [c]
  }

  // Of the frame of that payload, what stands behind the first octet of c.
  function Behind(p: seq<bv8>, c: bv8): seq<bv8> {
    (if c == ESC then [ESC ^ MASK] else []) + Stuff(Trailer(Longer(p, c)))
  }

  lemma LongerBody(p: seq<bv8>, c: bv8)
    requires c != FLAG
    ensures Body(Longer(p, c)) == With(Body(p), c, Behind(p, c))
    ensures FLAG !in Behind(p, c)
  {
    var q := p + Trailer(p);
    StuffConcat(q + [c], Trailer(q + [c]));
    StuffOneMore(q, c);
    UnstuffStuff(Trailer(q + [c]));
    StuffedFirst(c);
    hide Stuff, Trailer, StuffOctet, Unstuff;
    Regroup(Stuff(q), c, if c == ESC then [ESC ^ MASK] else [], Stuff(Trailer(q + [c])));
  }

  lemma StuffedFirst(c: bv8)
    requires c != FLAG
    ensures StuffOctet(c) == [c] + (if c == ESC then [ESC ^ MASK] else [])
    ensures FLAG != ESC ^ MASK
  {
  }

  lemma Regroup(a: seq<bv8>, c: bv8, b: seq<bv8>, e: seq<bv8>)
    ensures a + ([c] + b) + e == With(a, c, b + e)
  {
  }

  // For every payload p and every octet c but a flag there is a frame in which a flag in place of c lets p be emitted,
  // which nobody sent.
  lemma FlagMissed(p: seq<bv8>, c: bv8, r: Receiver, times: seq<nat>)
    requires p != [] && c != FLAG && FLAG !in r.inputFrame
    requires |times| == |Framed(With(Body(p), FLAG, Behind(p, c)))|
    ensures Frame(Longer(p, c)) == Framed(With(Body(p), c, Behind(p, c)))
    ensures Deframe(With(Body(p), c, Behind(p, c))) == Deframed(true, Longer(p, c))
    ensures OnOctets(r, Framed(With(Body(p), FLAG, Behind(p, c))), times).emitted
         == OnFrame(r).emitted + [p] + Payloads([Behind(p, c)])
  {
    LongerBody(p, c);
    RoundTrip(Longer(p, c));
    RoundTrip(p);
    hide Body, Behind, Longer, Deframe, OnFrame, OnOctets;
    var front, back := Body(p), Behind(p, c);
    OneSegment(front);
    PayloadsConcat([front], [back]);
    hide Join, Payloads;
    FramedEmits(r, With(front, FLAG, back), [front], back, times);
    Associate(OnFrame(r).emitted, [p], Payloads([back]));
  }

  // One flipped bit, for instance, with every escape in its place.
  lemma OneBitMakesFlag(p: seq<bv8>)
    requires p != []
    ensures 0x7F ^ 0x01 == FLAG
    ensures Deframe(With(Body(p), 0x7F, Behind(p, 0x7F))).ok && !Silent(With(Body(p), FLAG, Behind(p, 0x7F)))
    ensures SameEscapes(With(Body(p), 0x7F, Behind(p, 0x7F)), With(Body(p), FLAG, Behind(p, 0x7F)))
  {
    FlagNotSilent(p, 0x7F);
    hide Deframe, Body, Behind, Silent;
  }

  lemma FlagNotSilent(p: seq<bv8>, c: bv8)
    requires p != [] && c != FLAG
    ensures Deframe(With(Body(p), c, Behind(p, c))).ok && !Silent(With(Body(p), FLAG, Behind(p, c)))
  {
    var body := With(Body(p), FLAG, Behind(p, c));
    var r, times := Receiver([], [], 0, []), seq(|Framed(body)|, _ => 0);
    FlagMissed(p, c, r, times);
    hide Body, Behind, Deframe, OnFrame, OnOctets, Payloads, Framed, With;
    assert |OnOctets(r, Framed(body), times).emitted| > |OnFrame(r).emitted|;
  }

  /* ---- Exactly which octets are safe ---- */

  // In every accepted frame, wherever between the flags c stands: with d in its place the frame is met with silence.
  ghost predicate AlwaysNoticed(c: bv8, d: bv8) {
    forall pre: seq<bv8>, post: seq<bv8> :: Deframe(With(pre, c, post)).ok ==> Silent(With(pre, d, post))
  }

  lemma OthersNoticed(c: bv8, d: bv8)
    requires c != d && c != ESC && d != ESC && d != FLAG
    ensures AlwaysNoticed(c, d)
  {
    forall pre: seq<bv8>, post: seq<bv8> | Deframe(With(pre, c, post)).ok
      ensures Silent(With(pre, d, post))
    {
      NoFlagIn(pre, c, d, post);
      hide Deframe, With, Silent;
      OthersRejected(pre, c, d, post);
      SilentIffRejected(With(pre, d, post));
    }
  }

  lemma NoFlagIn(pre: seq<bv8>, c: bv8, d: bv8, post: seq<bv8>)
    requires Deframe(With(pre, c, post)).ok && d != FLAG
    ensures FLAG !in With(pre, c, post) && FLAG !in With(pre, d, post)
  {
    hide Unstuff, Passes, BeforeFlag;
    var x, y := With(pre, c, post), With(pre, d, post);
    assert forall i :: 0 <= i < |x| && i != |pre| ==> y[i] == x[i];
  }

  lemma EscapeNotSilent(c: bv8, d: bv8)
    requires c != d && (c == ESC || d == ESC) && c != FLAG && d != FLAG
    ensures !AlwaysNoticed(c, d)
  {
    var e := if c == ESC then d else c;
    EscapeMissed(e);
    var pre, post := Stuff(Opening(e)), Closing(e);
    hide Deframe, Opening, Closing, Stuff, With, Silent;
    NoFlagIn(pre, c, d, post);
    SilentIffRejected(With(pre, d, post));
  }

  // One octet in place of another, between the flags, is noticed in every frame exactly if neither is an escape and
  // the new one is no flag.
  lemma AlwaysNoticedIff(c: bv8, d: bv8)
    requires c != d && c != FLAG
    ensures AlwaysNoticed(c, d) <==> c != ESC && d != ESC && d != FLAG
  {
    hide Deframe, Silent, Body, Behind;
    if d == FLAG {
      FlagNotSilent([0], c);
      assert !AlwaysNoticed(c, d);
    } else if c == ESC || d == ESC {
      EscapeNotSilent(c, d);
    } else {
      OthersNoticed(c, d);
    }
  }
}
