/** The streaming deframer `BytesToFrame`.

    Octets arrive in chunks.  A flag closes whatever was collected since the previous
    flag; at the end of a chunk the collection is dropped when the last flag is more
    than a second old.  `Receiver` is the state, `OnChunk` what one chunk does to it;
    the class is the program's loop over the chunk. */
module Deframer {
  import Fcs
  import opened Millis
  import opened PppFrame

  const FRAME_TIMEOUT: nat := 1000

  // emitted lists what the subscribers received, oldest first.
  datatype Receiver = Receiver(
    inputFrame: seq<bv8>, cleanData: seq<bv8>, lastFrameFlag: nat, emitted: seq<seq<bv8>>)

  // octets with the clock reading taken at each of them should it be a flag, and the reading at the end.
  datatype Chunk = Chunk(octets: seq<bv8>, flagTimes: seq<nat>, endTime: nat) {
    predicate Valid() {
      |octets| == |flagTimes|
    }
  }

  function OnFrame(r: Receiver): Receiver {
    if r.inputFrame == [] then r
    else
      var d := Deframe(r.inputFrame);
      r.(cleanData := d.out, emitted := if d.ok then r.emitted + [d.out] else r.emitted)
  }

  function OnOctet(r: Receiver, b: bv8, time: nat): Receiver {
    if b == FLAG then OnFrame(r).(lastFrameFlag := time, inputFrame := [])
    else r.(inputFrame := r.inputFrame + [b])
  }

  function OnOctets(r: Receiver, bs: seq<bv8>, times: seq<nat>): Receiver
    requires |bs| == |times|
  {
    if bs == [] then r
    else
      var n := |bs| - 1;
      OnOctet(OnOctets(r, bs[..n], times[..n]), bs[n], times[n])
  }

  predicate TimedOut(r: Receiver, now: nat) {
    Elapsed(now, r.lastFrameFlag) > FRAME_TIMEOUT
  }

  function OnChunk(r: Receiver, c: Chunk): Receiver
    requires c.Valid()
  {
    var r' := OnOctets(r, c.octets, c.flagTimes);
    if TimedOut(r', c.endTime) then r'.(inputFrame := []) else r'
  }

  predicate AllValid(cs: seq<Chunk>) {
    forall i :: 0 <= i < |cs| ==> cs[i].Valid()
  }

  function Run(r: Receiver, cs: seq<Chunk>): Receiver
    requires AllValid(cs)
  {
    if cs == [] then r else OnChunk(Run(r, cs[..|cs| - 1]), cs[|cs| - 1])
  }

  // All octets of the chunks.
  function Octets(cs: seq<Chunk>): seq<bv8> {
    if cs == [] then [] else Octets(cs[..|cs| - 1]) + cs[|cs| - 1].octets
  }

  /** The object.  `log` stands for the subscribers. */
  class BytesToFrame {
    var inputFrame: seq<bv8>
    var cleanData: seq<bv8>
    var lastFrameFlag: nat
    var log: seq<seq<bv8>>

    // The flag time is not initialised by the program: it may be anything.
    constructor (flagTime: nat)
      ensures State() == Receiver([], [], flagTime, [])
    {
      inputFrame, cleanData, lastFrameFlag, log := [], [], flagTime, [];
    }

    ghost function State(): Receiver
      reads this
    {
      Receiver(inputFrame, cleanData, lastFrameFlag, log)
    }

    method HandleFrame() returns (ok: bool)
      modifies this
      ensures State() == OnFrame(old(State()))
      ensures ok == (log != old(log))
    {
      if |inputFrame| == 0 {
        return false;
      }
      var accepted, out := ExtractPayload(inputFrame);
      cleanData := out;
      if accepted {
        log := log + [cleanData];
      }
      return accepted;
    }

    method HandleRxd(c: Chunk)
      requires c.Valid()
      modifies this
      ensures State() == OnChunk(old(State()), c)
    {
      hide OnFrame, Elapsed, OnOctets;
      NoOctets(State());
      var bs := c.octets;
      for i := 0 to |bs|
        invariant State() == OnOctets(old(State()), bs[..i], c.flagTimes[..i])
      {
        OnOctetsOneMore(old(State()), bs, c.flagTimes, i);
        FlagTimeUnread(State(), c.flagTimes[i]);
        if bs[i] == FLAG {
          lastFrameFlag := c.flagTimes[i];
          var _ := HandleFrame();
          inputFrame := [];
        } else {
          inputFrame := inputFrame + [bs[i]];
        }
      }
      assert bs[..|bs|] == bs && c.flagTimes[..|bs|] == c.flagTimes;
      if Elapsed(c.endTime, lastFrameFlag) > FRAME_TIMEOUT {
        inputFrame := [];
      }
    }
  }

  lemma NoOctets(r: Receiver)
    ensures OnOctets(r, [], []) == r
  {
  }

  lemma OnOctetsOneMore(r: Receiver, bs: seq<bv8>, times: seq<nat>, i: nat)
    requires i < |bs| == |times|
    ensures OnOctets(r, bs[..i + 1], times[..i + 1]) == OnOctet(OnOctets(r, bs[..i], times[..i]), bs[i], times[i])
  {
    hide OnOctet;
    assert bs[..i + 1][..i] == bs[..i] && times[..i + 1][..i] == times[..i];
  }

  lemma FlagTimeUnread(r: Receiver, time: nat)
    ensures OnFrame(r.(lastFrameFlag := time)) == OnFrame(r).(lastFrameFlag := time)
  {
  }

  /* ---- The collection never holds a flag ---- */

  lemma {:induction false} OctetsBufferNoFlag(r: Receiver, bs: seq<bv8>, times: seq<nat>)
    requires |bs| == |times| && FLAG !in r.inputFrame
    ensures FLAG !in OnOctets(r, bs, times).inputFrame
  {
    if bs != [] {
      OctetsBufferNoFlag(r, bs[..|bs| - 1], times[..|bs| - 1]);
    }
  }

  lemma {:induction false} BufferNoFlag(r: Receiver, cs: seq<Chunk>)
    requires AllValid(cs) && FLAG !in r.inputFrame
    ensures FLAG !in Run(r, cs).inputFrame
  {
    if cs != [] {
      var n := |cs| - 1;
      BufferNoFlag(r, cs[..n]);
      OctetsBufferNoFlag(Run(r, cs[..n]), cs[n].octets, cs[n].flagTimes);
    }
  }

  /* ---- Every emission comes from a place of its own in the stream ---- */

  // The octets from start up to the flag at end.
  datatype Span = Span(start: nat, end: nat)

  // The span is closed by a flag, holds none, and carries the payload.
  predicate Yields(s: seq<bv8>, span: Span, p: seq<bv8>) {
    && span.start <= span.end < |s| && s[span.end] == FLAG
    && Carries(s[span.start..span.end], p)
  }

  // One span for each payload, in order and apart.
  predicate Sourced(s: seq<bv8>, spans: seq<Span>, payloads: seq<seq<bv8>>) {
    && |spans| == |payloads|
    && (forall k :: 0 <= k < |spans| ==> Yields(s, spans[k], payloads[k]))
    && (forall k, l :: 0 <= k < l < |spans| ==> spans[k].end < spans[l].start)
  }

  // What r has come to after the stream s: the collection is the end of the stream, and what was emitted since comes
  // from spans before it.
  predicate Traced(r: Receiver, s: seq<bv8>, spans: seq<Span>, now: Receiver) {
    && |now.inputFrame| <= |s| && now.inputFrame == s[|s| - |now.inputFrame|..]
    && r.emitted <= now.emitted && Sourced(s, spans, now.emitted[|r.emitted|..])
    && (forall k :: 0 <= k < |spans| ==> spans[k].end < |s| - |now.inputFrame|)
  }

  lemma YieldsLonger(s: seq<bv8>, b: bv8, span: Span, p: seq<bv8>)
    requires Yields(s, span, p)
    ensures Yields(s + [b], span, p)
  {
    hide Carries;
    assert (s + [b])[span.start..span.end] == s[span.start..span.end];
  }

  lemma SourcedLonger(s: seq<bv8>, b: bv8, spans: seq<Span>, payloads: seq<seq<bv8>>)
    requires Sourced(s, spans, payloads)
    ensures Sourced(s + [b], spans, payloads)
  {
    hide Yields;
    forall k | 0 <= k < |spans|
      ensures Yields(s + [b], spans[k], payloads[k])
    {
      YieldsLonger(s, b, spans[k], payloads[k]);
    }
  }

  lemma OctetTraced(r: Receiver, s: seq<bv8>, spans: seq<Span>, now: Receiver, b: bv8, time: nat)
    returns (spans': seq<Span>)
    requires Traced(r, s, spans, now)
    ensures Traced(r, s + [b], spans', OnOctet(now, b, time))
    ensures spans' ==
            if b == FLAG && Deframe(now.inputFrame).ok then spans + [Span(|s| - |now.inputFrame|, |s|)] else spans
  {
    hide Deframe, Carries;
    SourcedLonger(s, b, spans, now.emitted[|r.emitted|..]);
    var start := |s| - |now.inputFrame|;
    NothingFromNothing();
    if b == FLAG && Deframe(now.inputFrame).ok {
      AcceptedCarries(now.inputFrame);
      assert (s + [b])[start..|s|] == now.inputFrame;
      spans' := spans + [Span(start, |s|)];
      assert OnOctet(now, b, time).emitted[|r.emitted|..] == now.emitted[|r.emitted|..] + [Deframe(now.inputFrame).out];
    } else {
      spans' := spans;
    }
  }

  lemma {:induction false} OctetsTraced(
    r: Receiver, s: seq<bv8>, spans: seq<Span>, now: Receiver, bs: seq<bv8>, times: seq<nat>)
    returns (spans': seq<Span>)
    requires |bs| == |times| && Traced(r, s, spans, now)
    ensures Traced(r, s + bs, spans', OnOctets(now, bs, times))
  {
    hide Traced, OnOctet;
    if bs == [] {
      assert s + bs == s;
      spans' := spans;
    } else {
      var n := |bs| - 1;
      spans' := OctetsTraced(r, s, spans, now, bs[..n], times[..n]);
      spans' := OctetTraced(r, s + bs[..n], spans', OnOctets(now, bs[..n], times[..n]), bs[n], times[n]);
      assert s + bs == s + bs[..n] + [bs[n]];
    }
  }

  lemma {:induction false} RunTraced(r: Receiver, cs: seq<Chunk>) returns (spans: seq<Span>)
    requires AllValid(cs)
    ensures Traced(r, r.inputFrame + Octets(cs), spans, Run(r, cs))
  {
    var s := r.inputFrame + Octets(cs);
    if cs == [] {
      spans := [];
      assert s == r.inputFrame;
    } else {
      hide OnOctets, TimedOut, Sourced;
      var n := |cs| - 1;
      spans := RunTraced(r, cs[..n]);
      var before := r.inputFrame + Octets(cs[..n]);
      spans := OctetsTraced(r, before, spans, Run(r, cs[..n]), cs[n].octets, cs[n].flagTimes);
      assert s == before + cs[n].octets;
    }
  }

  // Whatever arrives, whenever, and whatever is dropped: each payload emitted is carried by octets that stand in the
  // stream, free of flags and closed by one, and no two payloads share any.
  lemma EmissionsSourced(r: Receiver, cs: seq<Chunk>)
    requires AllValid(cs)
    ensures r.emitted <= Run(r, cs).emitted
    ensures exists spans ::
              Sourced(r.inputFrame + Octets(cs), spans, Run(r, cs).emitted[|r.emitted|..])
  {
    var spans := RunTraced(r, cs);
    hide Sourced, Run;
  }

  /* ---- A stream read as segments that flags close ---- */

  predicate FlagFree(segments: seq<seq<bv8>>) {
    forall i :: 0 <= i < |segments| ==> FLAG !in segments[i]
  }

  function Join(segments: seq<seq<bv8>>): seq<bv8> {
    if segments == [] then []
    else Join(segments[..|segments| - 1]) + segments[|segments| - 1] + [FLAG]
  }

  // The payloads of the accepted segments, in order.
  function Payloads(segments: seq<seq<bv8>>): seq<seq<bv8>> {
    if segments == [] then []
    else
      var d := Deframe(segments[|segments| - 1]);
      Payloads(segments[..|segments| - 1]) + (if d.ok then [d.out] else [])
  }

  lemma {:induction false} StreamSplits(s: seq<bv8>) returns (segments: seq<seq<bv8>>, tail: seq<bv8>)
    ensures FlagFree(segments) && FLAG !in tail
    ensures s == Join(segments) + tail
  {
    if s == [] {
      segments, tail := [], [];
    } else {
      var n := |s| - 1;
      segments, tail := StreamSplits(s[..n]);
      assert s == s[..n] + [s[n]];
      if s[n] == FLAG {
        var whole := segments + [tail];
        assert whole[..|segments|] == segments;
        assert Join(whole) == Join(segments) + tail + [FLAG];
        segments, tail := whole, [];
      } else {
        tail := tail + [s[n]];
      }
    }
  }

  lemma JoinHoldsFlag(segments: seq<seq<bv8>>, tail: seq<bv8>)
    ensures segments != [] ==> FLAG in Join(segments) + tail
  {
  }

  // Whatever is collected plus what arrives, read as segments and a rest:
  // the accepted segments are emitted, the rest is kept.
  lemma {:induction false} EmitsSegments(
    r: Receiver, bs: seq<bv8>, times: seq<nat>, segments: seq<seq<bv8>>, tail: seq<bv8>)
    requires |bs| == |times|
    requires FLAG !in r.inputFrame && FlagFree(segments) && FLAG !in tail
    requires r.inputFrame + bs == Join(segments) + tail
    ensures OnOctets(r, bs, times).inputFrame == tail
    ensures OnOctets(r, bs, times).emitted == r.emitted + Payloads(segments)
  {
    hide Deframe;
    if bs == [] {
      assert r.inputFrame + bs == r.inputFrame;
      JoinHoldsFlag(segments, tail);
    } else {
      var n := |bs| - 1;
      var s := r.inputFrame + bs;
      assert s[..|s| - 1] == r.inputFrame + bs[..n];
      LastOctet(segments, tail, s);
      if bs[n] == FLAG {
        var k := |segments| - 1;
        EmitsSegments(r, bs[..n], times[..n], segments[..k], segments[k]);
        NothingFromNothing();
      } else {
        EmitsSegments(r, bs[..n], times[..n], segments, tail[..|tail| - 1]);
      }
    }
  }

  lemma LastOfConcat(j: seq<bv8>, tail: seq<bv8>)
    requires tail != []
    ensures var s := j + tail;
            s[|s| - 1] == tail[|tail| - 1] && s[..|s| - 1] == j + tail[..|tail| - 1]
    ensures tail == tail[..|tail| - 1] + [tail[|tail| - 1]]
  {
  }

  lemma LastOfJoin(segments: seq<seq<bv8>>)
    requires segments != []
    ensures var s := Join(segments);
            s != [] && s[|s| - 1] == FLAG
            && s[..|s| - 1] == Join(segments[..|segments| - 1]) + segments[|segments| - 1]
  {
  }

  // The last octet of a stream tells whether its last segment is closed.
  lemma LastOctet(segments: seq<seq<bv8>>, tail: seq<bv8>, s: seq<bv8>)
    requires s == Join(segments) + tail && FLAG !in tail && s != []
    ensures s[|s| - 1] == FLAG <==> tail == []
    ensures tail == [] ==>
              segments != [] && s[..|s| - 1] == Join(segments[..|segments| - 1]) + segments[|segments| - 1]
    ensures tail != [] ==>
              s[..|s| - 1] == Join(segments) + tail[..|tail| - 1] && tail == tail[..|tail| - 1] + [s[|s| - 1]]
  {
    if tail == [] {
      assert s == Join(segments);
      assert segments != [];
      hide Join;
      LastOfJoin(segments);
    } else {
      hide Join;
      LastOfConcat(Join(segments), tail);
    }
  }

  lemma NothingFromNothing()
    ensures !Deframe([]).ok
  {
  }

  /* ---- Chunking is irrelevant ---- */

  // When the last flag was seen, by the clock of the chunks alone.
  function FlagTime(earlier: nat, bs: seq<bv8>, times: seq<nat>): nat
    requires |bs| == |times|
  {
    if bs == [] then earlier
    else if bs[|bs| - 1] == FLAG then times[|bs| - 1]
    else FlagTime(earlier, bs[..|bs| - 1], times[..|bs| - 1])
  }

  function LastFlagTime(earlier: nat, cs: seq<Chunk>): nat
    requires AllValid(cs)
  {
    if cs == [] then earlier
    else FlagTime(LastFlagTime(earlier, cs[..|cs| - 1]), cs[|cs| - 1].octets, cs[|cs| - 1].flagTimes)
  }

  lemma {:induction false} OctetsFlagTime(r: Receiver, bs: seq<bv8>, times: seq<nat>)
    requires |bs| == |times|
    ensures OnOctets(r, bs, times).lastFrameFlag == FlagTime(r.lastFrameFlag, bs, times)
  {
    hide OnFrame;
    if bs != [] {
      OctetsFlagTime(r, bs[..|bs| - 1], times[..|bs| - 1]);
    }
  }

  lemma {:induction false} RunFlagTime(r: Receiver, cs: seq<Chunk>)
    requires AllValid(cs)
    ensures Run(r, cs).lastFrameFlag == LastFlagTime(r.lastFrameFlag, cs)
  {
    hide OnOctets, FlagTime, TimedOut;
    if cs != [] {
      var n := |cs| - 1;
      RunFlagTime(r, cs[..n]);
      OctetsFlagTime(Run(r, cs[..n]), cs[n].octets, cs[n].flagTimes);
    }
  }

  // The last chunk ends more than the timeout after the last flag.
  predicate Late(r: Receiver, cs: seq<Chunk>)
    requires AllValid(cs) && cs != []
  {
    Elapsed(cs[|cs| - 1].endTime, LastFlagTime(r.lastFrameFlag, cs)) > FRAME_TIMEOUT
  }

  // What the last chunk does: its octets, and then the collection is dropped exactly if the chunk ends late.
  lemma LastChunk(r: Receiver, cs: seq<Chunk>)
    requires AllValid(cs) && cs != []
    ensures var c := cs[|cs| - 1];
            var after := OnOctets(Run(r, cs[..|cs| - 1]), c.octets, c.flagTimes);
            && Run(r, cs).emitted == after.emitted
            && Run(r, cs).inputFrame == if Late(r, cs) then [] else after.inputFrame
  {
    hide OnOctets, FlagTime, Elapsed;
    var n := |cs| - 1;
    RunFlagTime(r, cs[..n]);
    OctetsFlagTime(Run(r, cs[..n]), cs[n].octets, cs[n].flagTimes);
  }

  // The same in plain numbers, for readings of 64 bits: the collection is kept up to 1000 ms after the last flag.
  // A flag time that lies in the future, as one never set may, counts as 2^64 ms earlier.
  lemma DroppedExactly(r: Receiver, cs: seq<Chunk>)
    requires AllValid(cs) && cs != []
    requires LastFlagTime(r.lastFrameFlag, cs) < 0x1_0000_0000_0000_0000
    requires cs[|cs| - 1].endTime < 0x1_0000_0000_0000_0000
    ensures var c := cs[|cs| - 1];
            var after := OnOctets(Run(r, cs[..|cs| - 1]), c.octets, c.flagTimes);
            var flag, end := LastFlagTime(r.lastFrameFlag, cs), c.endTime;
            var age := if flag <= end then end - flag else end - flag + 0x1_0000_0000_0000_0000;
            Run(r, cs).inputFrame == if age <= 1000 then after.inputFrame else []
  {
    LastChunk(r, cs);
    Plain(cs[|cs| - 1].endTime, LastFlagTime(r.lastFrameFlag, cs));
    hide OnOctets, LastFlagTime, Elapsed, Run;
  }

  // No chunk ends so late that something is dropped.
  predicate Undisturbed(r: Receiver, cs: seq<Chunk>)
    requires AllValid(cs)
  {
    cs == [] ||
    (var c := cs[|cs| - 1];
     var after := OnOctets(Run(r, cs[..|cs| - 1]), c.octets, c.flagTimes);
     Undisturbed(r, cs[..|cs| - 1]) && (after.inputFrame == [] || !Late(r, cs)))
  }

  lemma UndisturbedChunk(r: Receiver, cs: seq<Chunk>)
    requires AllValid(cs) && Undisturbed(r, cs) && cs != []
    ensures Undisturbed(r, cs[..|cs| - 1])
    ensures var c := cs[|cs| - 1];
            var after := OnOctets(Run(r, cs[..|cs| - 1]), c.octets, c.flagTimes);
            Run(r, cs).inputFrame == after.inputFrame && Run(r, cs).emitted == after.emitted
  {
    hide OnOctets, Late, Run;
    LastChunk(r, cs);
  }

  // The segments of a stream, given those of a beginning of it.
  lemma MoreSegments(done: seq<seq<bv8>>, rest: seq<bv8>, octets: seq<bv8>, segments: seq<seq<bv8>>, tail: seq<bv8>)
    returns (more: seq<seq<bv8>>)
    requires FlagFree(done) && FLAG !in rest && FlagFree(segments) && FLAG !in tail
    requires Join(done) + rest + octets == Join(segments) + tail
    ensures FlagFree(more) && rest + octets == Join(more) + tail
    ensures Payloads(segments) == Payloads(done) + Payloads(more)
  {
    hide Join, Payloads;
    var last;
    more, last := StreamSplits(rest + octets);
    JoinConcat(done, more);
    PayloadsConcat(done, more);
    Associate(Join(done), rest, octets);
    Associate(Join(done), Join(more), last);
    SplitUnique(done + more, last, segments, tail);
  }

  lemma OctetsSoFar(r: Receiver, cs: seq<Chunk>)
    requires cs != []
    ensures r.inputFrame + Octets(cs) == (r.inputFrame + Octets(cs[..|cs| - 1])) + cs[|cs| - 1].octets
  {
    var before, last := Octets(cs[..|cs| - 1]), cs[|cs| - 1].octets;
    assert Octets(cs) == before + last;
    hide Octets;
    Associate(r.inputFrame, before, last);
  }

  lemma Associate<T>(a: seq<T>, b: seq<T>, c: seq<T>)
    ensures a + b + c == a + (b + c)
  {
  }

  lemma {:induction false} RunEmitsSegments(r: Receiver, cs: seq<Chunk>, segments: seq<seq<bv8>>, tail: seq<bv8>)
    requires AllValid(cs) && Undisturbed(r, cs)
    requires FLAG !in r.inputFrame && FlagFree(segments) && FLAG !in tail
    requires r.inputFrame + Octets(cs) == Join(segments) + tail
    ensures Run(r, cs).inputFrame == tail
    ensures Run(r, cs).emitted == r.emitted + Payloads(segments)
  {
    hide OnOctets, OnChunk, Undisturbed;
    if cs == [] {
      assert r.inputFrame + [] == r.inputFrame;
      JoinHoldsFlag(segments, tail);
    } else {
      OctetsSoFar(r, cs);
      UndisturbedChunk(r, cs);
      hide Run, Join, Payloads, FlagFree, Octets;
      var n := |cs| - 1;
      var before := r.inputFrame + Octets(cs[..n]);
      var done, rest := StreamSplits(before);
      RunEmitsSegments(r, cs[..n], done, rest);
      var more := MoreSegments(done, rest, cs[n].octets, segments, tail);
      EmitsSegments(Run(r, cs[..n]), cs[n].octets, cs[n].flagTimes, more, tail);
      Associate(r.emitted, Payloads(done), Payloads(more));
    }
  }

  lemma {:induction false} JoinConcat(a: seq<seq<bv8>>, b: seq<seq<bv8>>)
    ensures Join(a + b) == Join(a) + Join(b)
  {
    if b == [] {
      assert a + b == a;
    } else {
      assert (a + b)[..|a + b| - 1] == a + b[..|b| - 1];
      JoinConcat(a, b[..|b| - 1]);
    }
  }

  lemma {:induction false} PayloadsConcat(a: seq<seq<bv8>>, b: seq<seq<bv8>>)
    ensures Payloads(a + b) == Payloads(a) + Payloads(b)
  {
    hide Deframe;
    if b == [] {
      assert a + b == a;
    } else {
      assert (a + b)[..|a + b| - 1] == a + b[..|b| - 1];
      PayloadsConcat(a, b[..|b| - 1]);
    }
  }

  lemma {:induction false} SplitUnique(a: seq<seq<bv8>>, s: seq<bv8>, b: seq<seq<bv8>>, t: seq<bv8>)
    requires FlagFree(a) && FlagFree(b) && FLAG !in s && FLAG !in t
    requires Join(a) + s == Join(b) + t
    ensures a == b && s == t
    decreases |Join(a) + s|
  {
    var x := Join(a) + s;
    if x == [] {
      EmptyJoin(a);
      EmptyJoin(b);
    } else {
      LastOctet(a, s, x);
      LastOctet(b, t, x);
      if s == [] {
        SplitUnique(a[..|a| - 1], a[|a| - 1], b[..|b| - 1], b[|b| - 1]);
      } else {
        SplitUnique(a, s[..|s| - 1], b, t[..|t| - 1]);
      }
    }
  }

  lemma EmptyJoin(a: seq<seq<bv8>>)
    requires Join(a) == []
    ensures a == []
  {
  }

  // Two undisturbed runs over the same octets, however cut, emit the same and keep the same.
  lemma ChunkingIrrelevant(r: Receiver, cs: seq<Chunk>, ds: seq<Chunk>)
    requires AllValid(cs) && AllValid(ds) && Undisturbed(r, cs) && Undisturbed(r, ds)
    requires FLAG !in r.inputFrame && Octets(cs) == Octets(ds)
    ensures Run(r, cs).emitted == Run(r, ds).emitted
    ensures Run(r, cs).inputFrame == Run(r, ds).inputFrame
  {
    var segments, tail := StreamSplits(r.inputFrame + Octets(cs));
    RunEmitsSegments(r, cs, segments, tail);
    RunEmitsSegments(r, ds, segments, tail);
  }

  /* ---- Frames sent are payloads received ---- */

  function Frames(ps: seq<seq<bv8>>): seq<bv8> {
    if ps == [] then [] else Frames(ps[..|ps| - 1]) + Frame(ps[|ps| - 1])
  }

  function NonEmpty(ps: seq<seq<bv8>>): seq<seq<bv8>> {
    if ps == [] then []
    else NonEmpty(ps[..|ps| - 1]) + (if ps[|ps| - 1] == [] then [] else [ps[|ps| - 1]])
  }

  // Each frame opens a segment with its first flag and fills one up to its second.
  function Segments(ps: seq<seq<bv8>>): seq<seq<bv8>> {
    if ps == [] then [] else Segments(ps[..|ps| - 1]) + [[], Body(ps[|ps| - 1])]
  }

  lemma {:induction false} SegmentsOfFrames(ps: seq<seq<bv8>>)
    ensures FlagFree(Segments(ps))
    ensures Join(Segments(ps)) == Frames(ps)
    ensures Payloads(Segments(ps)) == NonEmpty(ps)
  {
    hide Deframe, Body, Frame;
    if ps != [] {
      var n := |ps| - 1;
      SegmentsOfFrames(ps[..n]);
      SegmentsOfOne(ps[n]);
      JoinConcat(Segments(ps[..n]), [[], Body(ps[n])]);
      PayloadsConcat(Segments(ps[..n]), [[], Body(ps[n])]);
      hide Join, Payloads;
    }
  }

  lemma SegmentsOfOne(p: seq<bv8>)
    ensures FLAG !in Body(p)
    ensures Join([[], Body(p)]) == Frame(p)
    ensures Payloads([[], Body(p)]) == if p == [] then [] else [p]
  {
    hide Deframe;
    BodyNoFlag(p);
    hide Body;
    var two := [[], Body(p)];
    var one: seq<seq<bv8>> := [[]];
    assert two[..1] == one && one[..0] == [];
    assert Join(one) == [FLAG];
    NothingFromNothing();
    assert Payloads(one) == [];
    if p == [] {
      RoundTripIffNonEmpty(p);
      EmptyNotAccepted();
    } else {
      RoundTrip(p);
    }
  }

  lemma BodyNoFlag(p: seq<bv8>)
    ensures FLAG !in Body(p)
  {
    UnstuffStuff(p + Fcs.Trailer(p));
  }

  lemma EmptyNotAccepted()
    ensures !Deframe(Body([])).ok
  {
    hide Body;
    EmptyBody();
  }

  // Every undisturbed run over the frames of any payloads emits the non-empty ones, in order, and keeps nothing.
  lemma FramesDelivered(r: Receiver, cs: seq<Chunk>, ps: seq<seq<bv8>>)
    requires AllValid(cs) && Undisturbed(r, cs)
    requires r.inputFrame == [] && Octets(cs) == Frames(ps)
    ensures Run(r, cs).emitted == r.emitted + NonEmpty(ps)
    ensures Run(r, cs).inputFrame == []
  {
    hide OnChunk, Run, Undisturbed, Segments, Payloads, NonEmpty, Join, Frames, Octets;
    SegmentsOfFrames(ps);
    assert r.inputFrame + Octets(cs) == Join(Segments(ps)) + [];
    RunEmitsSegments(r, cs, Segments(ps), []);
  }

  // Every chunk ends within a second of the last flag.
  predicate Prompt(r: Receiver, cs: seq<Chunk>)
    requires AllValid(cs)
  {
    cs == [] ||
    (var flag, end := LastFlagTime(r.lastFrameFlag, cs), cs[|cs| - 1].endTime;
     Prompt(r, cs[..|cs| - 1]) && flag <= end <= flag + 1000 && end < 0x1_0000_0000_0000_0000)
  }

  // Then nothing is dropped.
  lemma {:induction false} PromptIsUndisturbed(r: Receiver, cs: seq<Chunk>)
    requires AllValid(cs) && Prompt(r, cs)
    ensures Undisturbed(r, cs)
  {
    if cs != [] {
      PromptIsUndisturbed(r, cs[..|cs| - 1]);
      Plain(cs[|cs| - 1].endTime, LastFlagTime(r.lastFrameFlag, cs));
      hide OnOctets, LastFlagTime, Elapsed, Run;
    }
  }

  /* ---- Resynchronisation ---- */

  // Once anything of this stream has arrived, every chunk ends within the timeout of the last flag.
  predicate Timely(r: Receiver, cs: seq<Chunk>)
    requires AllValid(cs)
  {
    cs == [] || (Timely(r, cs[..|cs| - 1]) && (Octets(cs) == [] || !Late(r, cs)))
  }

  // What may have been emitted when the frame's opening flag closed the old collection.
  predicate Prior(r: Receiver, emitted: seq<seq<bv8>>) {
    emitted == r.emitted
    || (Deframe(r.inputFrame).ok && emitted == r.emitted + [Deframe(r.inputFrame).out])
  }

  // How far the receiver is with Frame(p) after the prefix s of it, having started as r.
  predicate Synced(r: Receiver, p: seq<bv8>, s: seq<bv8>, st: Receiver) {
    if s == [] then
      st.emitted == r.emitted && (st.inputFrame == r.inputFrame || st.inputFrame == [])
    else if |s| < |Frame(p)| then
      st.inputFrame == s[1..] && Prior(r, st.emitted)
    else
      st.inputFrame == [] && st.emitted != [] &&
      st.emitted[|st.emitted| - 1] == p && Prior(r, st.emitted[..|st.emitted| - 1])
  }

  lemma SyncedOctet(r: Receiver, p: seq<bv8>, s: seq<bv8>, b: bv8, time: nat, st: Receiver)
    requires p != [] && s + [b] <= Frame(p) && Synced(r, p, s, st)
    ensures Synced(r, p, s + [b], OnOctet(st, b, time))
  {
    hide Deframe;
    RoundTrip(p);
    hide Body;
    var f := Frame(p);
    assert f[|s|] == b && f[..|s|] == s;
    NothingFromNothing();
    if s == [] {
      assert b == FLAG;
      assert (s + [b])[1..] == [];
    } else if |s| + 1 < |f| {
      assert b == Body(p)[|s| - 1];
      assert (s + [b])[1..] == s[1..] + [b];
    } else {
      assert b == FLAG && s[1..] == Body(p);
      BodyNotEmpty(p);
      var e := OnOctet(st, b, time).emitted;
      assert e == st.emitted + [p];
      assert e[..|e| - 1] == st.emitted;
    }
  }

  lemma BodyNotEmpty(p: seq<bv8>)
    ensures Body(p) != []
  {
  }

  lemma {:induction false} SyncedOctets(
    r: Receiver, p: seq<bv8>, s: seq<bv8>, bs: seq<bv8>, times: seq<nat>, st: Receiver)
    requires |bs| == |times| && p != [] && s + bs <= Frame(p) && Synced(r, p, s, st)
    ensures Synced(r, p, s + bs, OnOctets(st, bs, times))
  {
    hide Synced, Frame;
    if bs == [] {
      assert s + bs == s;
    } else {
      var n := |bs| - 1;
      assert s + bs == s + bs[..n] + [bs[n]];
      SyncedOctets(r, p, s, bs[..n], times[..n], st);
      SyncedOctet(r, p, s + bs[..n], bs[n], times[n], OnOctets(st, bs[..n], times[..n]));
    }
  }

  lemma {:induction false} SyncedRun(r: Receiver, p: seq<bv8>, cs: seq<Chunk>)
    requires AllValid(cs) && p != [] && Octets(cs) <= Frame(p) && Timely(r, cs)
    ensures Synced(r, p, Octets(cs), Run(r, cs))
  {
    hide Frame, Late, OnOctets, OnChunk;
    if cs != [] {
      var n := |cs| - 1;
      LastChunk(r, cs);
      SyncedRun(r, p, cs[..n]);
      SyncedOctets(r, p, Octets(cs[..n]), cs[n].octets, cs[n].flagTimes, Run(r, cs[..n]));
    }
  }

  // From any state, a timely non-empty payload gets through and leaves the receiver clean.
  lemma Resynchronises(r: Receiver, p: seq<bv8>, cs: seq<Chunk>)
    requires AllValid(cs) && p != [] && Octets(cs) == Frame(p) && Timely(r, cs)
    ensures Run(r, cs).inputFrame == []
    ensures Run(r, cs).emitted == r.emitted + [p]
         || (Deframe(r.inputFrame).ok && Run(r, cs).emitted == r.emitted + [Deframe(r.inputFrame).out] + [p])
  {
    hide Deframe;
    SyncedRun(r, p, cs);
    var e := Run(r, cs).emitted;
    assert e == e[..|e| - 1] + [p];
  }

  /* ---- A frame anywhere in the stream ---- */

  // The frame of p stands at offset o of the stream.
  predicate FrameAt(stream: seq<bv8>, o: nat, p: seq<bv8>) {
    o + |Frame(p)| <= |stream| && stream[o..o + |Frame(p)|] == Frame(p)
  }

  // The span between its flags.
  function BodySpan(o: nat, p: seq<bv8>): Span {
    Span(o + 1, o + |Frame(p)| - 1)
  }

  // What has come of the frame after the beginning s of the stream: before it, nothing; from its first flag on, the
  // collection starts behind that flag; behind its second flag, its span is among those emitted.
  predicate Followed(o: nat, p: seq<bv8>, s: seq<bv8>, spans: seq<Span>, now: Receiver) {
    if |s| <= o then true
    else if |s| < o + |Frame(p)| then |s| - |now.inputFrame| == o + 1
    else BodySpan(o, p) in spans
  }

  lemma SliceOfSlice(s: seq<bv8>, a: nat, b: nat, c: nat, d: nat)
    requires a <= b <= |s| && c <= d <= b - a
    ensures s[a..b][c..d] == s[a + c..a + d]
  {
    var t, u := s[a..b][c..d], s[a + c..a + d];
    assert forall i :: 0 <= i < d - c ==> t[i] == s[a..b][c + i] == s[a + (c + i)] == u[i];
    assert t == u;
  }

  lemma FrameShape(p: seq<bv8>)
    ensures |Frame(p)| >= 3 && Frame(p)[1..|Frame(p)| - 1] == Body(p)
    ensures forall i :: 0 <= i < |Frame(p)| ==> (Frame(p)[i] == FLAG <==> i == 0 || i == |Frame(p)| - 1)
  {
    BodyNoFlag(p);
    BodyNotEmpty(p);
    hide Body;
  }

  lemma FrameOctet(stream: seq<bv8>, o: nat, p: seq<bv8>, n: nat)
    requires FrameAt(stream, o, p) && o <= n < o + |Frame(p)|
    ensures stream[n] == FLAG <==> n == o || n == o + |Frame(p)| - 1
    ensures |Frame(p)| >= 3 && stream[o + 1..o + |Frame(p)| - 1] == Body(p)
  {
    FrameShape(p);
    hide Frame, Body;
    var f := Frame(p);
    assert stream[n] == stream[o..o + |f|][n - o];
    SliceOfSlice(stream, o, o + |f|, 1, |f| - 1);
  }

  lemma OctetCollects(now: Receiver, b: bv8, time: nat)
    ensures OnOctet(now, b, time).inputFrame == if b == FLAG then [] else now.inputFrame + [b]
  {
    hide Deframe;
  }

  lemma TracedCollection(r: Receiver, s: seq<bv8>, spans: seq<Span>, now: Receiver, from: nat)
    requires Traced(r, s, spans, now) && from == |s| - |now.inputFrame|
    ensures from <= |s| && now.inputFrame == s[from..]
  {
    hide Sourced;
  }

  // Of the frame itself: its first flag empties the collection, its body is collected, its second flag yields its span.
  lemma FollowedStep(
    o: nat, p: seq<bv8>, s: seq<bv8>, b: bv8, spans: seq<Span>, spans': seq<Span>, now: Receiver, now': Receiver)
    requires Followed(o, p, s, spans, now) && |Frame(p)| >= 3 && spans <= spans'
    requires now'.inputFrame == if b == FLAG then [] else now.inputFrame + [b]
    requires o <= |s| < o + |Frame(p)| ==> (b == FLAG <==> |s| == o || |s| == o + |Frame(p)| - 1)
    requires |s| == o + |Frame(p)| - 1 ==> BodySpan(o, p) in spans'
    ensures Followed(o, p, s + [b], spans', now')
  {
    hide Frame;
  }

  // What is collected when the second flag comes is the body.
  lemma BodyCollected(
    stream: seq<bv8>, o: nat, p: seq<bv8>, r: Receiver, s: seq<bv8>, spans: seq<Span>, now: Receiver)
    requires FrameAt(stream, o, p) && s <= stream && |s| == o + |Frame(p)| - 1
    requires Traced(r, s, spans, now) && Followed(o, p, s, spans, now)
    ensures now.inputFrame == Body(p) && |s| - |now.inputFrame| == o + 1
  {
    FrameOctet(stream, o, p, o);
    hide Frame, Body, FrameAt;
    TracedCollection(r, s, spans, now, o + 1);
    hide Traced;
    assert s == stream[..|s|];
    assert stream[..|s|][o + 1..] == stream[o + 1..|s|];
  }

  lemma OctetFollowed(
    stream: seq<bv8>, o: nat, p: seq<bv8>, r: Receiver, s: seq<bv8>, spans: seq<Span>, now: Receiver, b: bv8, time: nat)
    returns (spans': seq<Span>)
    requires p != [] && FrameAt(stream, o, p) && s + [b] <= stream
    requires Traced(r, s, spans, now) && Followed(o, p, s, spans, now)
    ensures Traced(r, s + [b], spans', OnOctet(now, b, time))
    ensures Followed(o, p, s + [b], spans', OnOctet(now, b, time))
  {
    hide Deframe, Traced, OnOctet, Frame, Body, FrameAt, Followed;
    spans' := OctetTraced(r, s, spans, now, b, time);
    OctetCollects(now, b, time);
    assert stream[|s|] == (s + [b])[|s|] == b;
    FrameShape(p);
    if o <= |s| < o + |Frame(p)| {
      FrameOctet(stream, o, p, |s|);
    }
    if |s| == o + |Frame(p)| - 1 {
      BodyCollected(stream, o, p, r, s, spans, now);
      RoundTrip(p);
      assert spans'[|spans|] == BodySpan(o, p);
    }
    FollowedStep(o, p, s, b, spans, spans', now, OnOctet(now, b, time));
  }

  lemma {:induction false} OctetsFollowed(
    stream: seq<bv8>, o: nat, p: seq<bv8>, r: Receiver, s: seq<bv8>, spans: seq<Span>, now: Receiver,
    bs: seq<bv8>, times: seq<nat>) returns (spans': seq<Span>)
    requires p != [] && FrameAt(stream, o, p) && |bs| == |times| && s + bs <= stream
    requires Traced(r, s, spans, now) && Followed(o, p, s, spans, now)
    ensures Traced(r, s + bs, spans', OnOctets(now, bs, times))
    ensures Followed(o, p, s + bs, spans', OnOctets(now, bs, times))
  {
    hide Traced, Followed, FrameAt, OnOctet;
    if bs == [] {
      assert s + bs == s;
      spans' := spans;
    } else {
      var n := |bs| - 1;
      assert s + bs == s + bs[..n] + [bs[n]];
      spans' := OctetsFollowed(stream, o, p, r, s, spans, now, bs[..n], times[..n]);
      var last := OnOctets(now, bs[..n], times[..n]);
      spans' := OctetFollowed(stream, o, p, r, s + bs[..n], spans', last, bs[n], times[n]);
    }
  }

  // No chunk that ends inside the body of the frame ends late.
  predicate Unharmed(r: Receiver, cs: seq<Chunk>, o: nat, p: seq<bv8>)
    requires AllValid(cs)
  {
    forall k :: 0 < k <= |cs| && Late(r, cs[..k]) ==>
      !(o + 1 < |r.inputFrame| + |Octets(cs[..k])| < o + |Frame(p)|)
  }

  lemma ChunkEndFollowed(
    o: nat, p: seq<bv8>, r: Receiver, s: seq<bv8>, spans: seq<Span>, after: Receiver, now: Receiver)
    requires Traced(r, s, spans, after) && Followed(o, p, s, spans, after)
    requires now.emitted == after.emitted
    requires now.inputFrame == after.inputFrame || (now.inputFrame == [] && !(o + 1 < |s| < o + |Frame(p)|))
    ensures Traced(r, s, spans, now) && Followed(o, p, s, spans, now)
  {
    hide Sourced, Frame;
  }

  lemma {:induction false} RunFollowed(stream: seq<bv8>, o: nat, p: seq<bv8>, r: Receiver, cs: seq<Chunk>)
    returns (spans: seq<Span>)
    requires p != [] && AllValid(cs) && FrameAt(stream, o, p) && Unharmed(r, cs, o, p)
    requires |r.inputFrame| <= o && r.inputFrame + Octets(cs) <= stream
    ensures Traced(r, r.inputFrame + Octets(cs), spans, Run(r, cs))
    ensures Followed(o, p, r.inputFrame + Octets(cs), spans, Run(r, cs))
  {
    if cs == [] {
      spans := [];
      assert r.inputFrame + Octets(cs) == r.inputFrame;
    } else {
      var n := |cs| - 1;
      OctetsSoFar(r, cs);
      LastChunk(r, cs);
      assert cs[..|cs|] == cs;
      assert Late(r, cs) ==> !(o + 1 < |r.inputFrame + Octets(cs)| < o + |Frame(p)|);
      HeadUnharmed(r, cs, o, p);
      hide Traced, Followed, FrameAt, OnOctets, Octets, Frame, Late, Unharmed, Run;
      var before := r.inputFrame + Octets(cs[..n]);
      spans := RunFollowed(stream, o, p, r, cs[..n]);
      spans := OctetsFollowed(stream, o, p, r, before, spans, Run(r, cs[..n]), cs[n].octets, cs[n].flagTimes);
      var after := OnOctets(Run(r, cs[..n]), cs[n].octets, cs[n].flagTimes);
      ChunkEndFollowed(o, p, r, before + cs[n].octets, spans, after, Run(r, cs));
    }
  }

  lemma HeadUnharmed(r: Receiver, cs: seq<Chunk>, o: nat, p: seq<bv8>)
    requires AllValid(cs) && cs != [] && Unharmed(r, cs, o, p)
    ensures Unharmed(r, cs[..|cs| - 1], o, p)
  {
    hide Late, Octets, Frame;
    var head := cs[..|cs| - 1];
    assert forall k :: 0 < k <= |head| ==> head[..k] == cs[..k];
  }

  // A frame that stands anywhere in what arrives is emitted from its own place there, whatever else arrives and
  // whatever else is dropped, as long as no chunk end within its body is late.
  lemma FrameDelivered(r: Receiver, cs: seq<Chunk>, o: nat, p: seq<bv8>)
    requires p != [] && AllValid(cs) && |r.inputFrame| <= o
    requires FrameAt(r.inputFrame + Octets(cs), o, p) && Unharmed(r, cs, o, p)
    ensures r.emitted <= Run(r, cs).emitted
    ensures exists spans, k ::
              && Sourced(r.inputFrame + Octets(cs), spans, Run(r, cs).emitted[|r.emitted|..])
              && 0 <= k < |spans| && spans[k] == BodySpan(o, p) && Run(r, cs).emitted[|r.emitted|..][k] == p
  {
    var stream := r.inputFrame + Octets(cs);
    var spans := RunFollowed(stream, o, p, r, cs);
    FrameDelivers(stream, o, p, r, spans, Run(r, cs));
    hide Run, Octets, Unharmed, FrameAt, Sourced, Frame;
  }

  // The span of the frame can only have yielded p.
  lemma FrameDelivers(stream: seq<bv8>, o: nat, p: seq<bv8>, r: Receiver, spans: seq<Span>, now: Receiver)
    requires p != [] && FrameAt(stream, o, p)
    requires Traced(r, stream, spans, now) && Followed(o, p, stream, spans, now)
    ensures r.emitted <= now.emitted && Sourced(stream, spans, now.emitted[|r.emitted|..])
    ensures exists k ::
              0 <= k < |spans| && spans[k] == BodySpan(o, p) && now.emitted[|r.emitted|..][k] == p
  {
    FrameShape(p);
    hide Frame, FrameAt, Yields;
    assert |stream| >= o + |Frame(p)| by {
      FrameFits(stream, o, p);
    }
    var k :| 0 <= k < |spans| && spans[k] == BodySpan(o, p);
    assert Yields(stream, spans[k], now.emitted[|r.emitted|..][k]);
    BodyYields(stream, o, p, now.emitted[|r.emitted|..][k]);
  }

  lemma FrameFits(stream: seq<bv8>, o: nat, p: seq<bv8>)
    requires FrameAt(stream, o, p)
    ensures |stream| >= o + |Frame(p)|
  {
    hide Frame;
  }

  lemma BodyYields(stream: seq<bv8>, o: nat, p: seq<bv8>, q: seq<bv8>)
    requires p != [] && FrameAt(stream, o, p) && |Frame(p)| >= 3 && Yields(stream, BodySpan(o, p), q)
    ensures q == p
  {
    FrameOctet(stream, o, p, o);
    BodyCarries(p);
    hide Frame, Body, FrameAt, Carries;
    CarriesOne(Body(p), p, q);
  }

  lemma CarriesOne(body: seq<bv8>, p: seq<bv8>, q: seq<bv8>)
    requires Carries(body, p) && Carries(body, q)
    ensures p == q
  {
    hide Carries, Deframe;
    CarriedIsAccepted(body, p);
    CarriedIsAccepted(body, q);
  }
}
