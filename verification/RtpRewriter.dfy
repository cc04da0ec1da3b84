/** One subscriber's view of a publisher's stream: sequence numbers and
    timestamps shifted so that the stream never jumps, modulo 2^16 and 2^32. */
module Rewriter {
  import opened Rtp

  const M16 := 0x1_0000
  const M32 := 0x1_0000_0000
  // The time a stream is taken to have advanced when it is picked up anew.
  const PICKUP := 90000

  datatype State = State(initialized: bool, seqOffset: Word16, tsOffset: Word32,
                         lastInSeq: Word16, lastInTs: Word32, lastOutSeq: Word16, lastOutTs: Word32)
  const FRESH := State(false, 0, 0, 0, 0, 0, 0)

  function Rewritten(st: State, s: Word16, t: Word32): State {
    var so: Word16 := if st.initialized then st.seqOffset else (s - (st.lastOutSeq + 1)) % M16;
    var to: Word32 := if st.initialized then st.tsOffset else (t - (st.lastOutTs + PICKUP)) % M32;
    State(true, so, to, s, t, (s - so) % M16, (t - to) % M32)
  }

  function AfterReset(st: State): State { st.(initialized := false) }

  /** The packet with another sequence number and timestamp. */
  function Stamp(b: seq<Byte>, s: Word16, t: Word32): (r: seq<Byte>)
    requires |b| >= MIN_HEADER_SIZE
    ensures |r| == |b| && SequenceNumber(r) == s && Timestamp(r) == t
    ensures SameExceptAt(b, r, 2, 8) && Ssrc(r) == Ssrc(b)
  {
    SetterKeepsRest(b, 2, Be16(s));
    SetterKeepsRest(Patch(b, 2, Be16(s)), 4, Be32(t));
    Patch(Patch(b, 2, Be16(s)), 4, Be32(t))
  }

  class RtpRewriter {
    var initialized: bool
    var seqOffset: Word16
    var tsOffset: Word32
    var lastInSeq: Word16
    var lastInTs: Word32
    var lastOutSeq: Word16
    var lastOutTs: Word32

    function Now(): State reads this {
      State(initialized, seqOffset, tsOffset, lastInSeq, lastInTs, lastOutSeq, lastOutTs)
    }

    constructor ()
      ensures Now() == FRESH
    {
      initialized, seqOffset, tsOffset := false, 0, 0;
      lastInSeq, lastInTs, lastOutSeq, lastOutTs := 0, 0, 0, 0;
    }

    method Reset()
      modifies this
      ensures Now() == AfterReset(old(Now()))
    {
      initialized := false;
    }

    method Rewrite(pkt: RtpPacket)
      requires pkt.Valid()
      modifies this, pkt.data
      ensures Now() == Rewritten(old(Now()), SequenceNumber(old(pkt.Bytes())), Timestamp(old(pkt.Bytes())))
      ensures pkt.Bytes() == Stamp(old(pkt.Bytes()), lastOutSeq, lastOutTs)
      ensures pkt.data[pkt.size..] == old(pkt.data[pkt.size..])
    {
      var s, t := SequenceNumber(pkt.Bytes()), Timestamp(pkt.Bytes());
      if !initialized {
        seqOffset := (s - (lastOutSeq + 1)) % M16;
        tsOffset := (t - (lastOutTs + PICKUP)) % M32;
        initialized := true;
      }
      lastInSeq := s;
      lastInTs := t;
      lastOutSeq := (lastInSeq - seqOffset) % M16;
      lastOutTs := (lastInTs - tsOffset) % M32;
      assert Now() == Rewritten(old(Now()), s, t);
      pkt.SetSequenceNumber(lastOutSeq);
      pkt.SetTimestamp(lastOutTs);
    }
  }

  // ------------------------------------------------------------- whole runs

  datatype Event = Packet(s: Word16, t: Word32) | Reset
  datatype Out = Out(s: Word16, t: Word32)

  function Step(st: State, e: Event): State {
    match e
    case Packet(s, t) => Rewritten(st, s, t)
    case Reset => AfterReset(st)
  }

  /** What the rewriter puts into the packets of a run. */
  function Outputs(st: State, run: seq<Event>): seq<Out>
    decreases run
  {
    if run == [] then []
    else (if run[0].Packet? then [Out(Step(st, run[0]).lastOutSeq, Step(st, run[0]).lastOutTs)] else [])
         + Outputs(Step(st, run[0]), run[1..])
  }

  /** The same without offsets: every output advances by as much as its input
      did, and by 1 and 90000 where the stream is picked up anew. */
  function Advance(prev: LastInput, last: Out, run: seq<Event>): seq<Out>
    decreases run
  {
    if run == [] then []
    else match run[0]
      case Reset => Advance(Unknown, last, run[1..])
      case Packet(s, t) =>
        var ds, dt := if prev.Known? then s - prev.at.s else 1, if prev.Known? then t - prev.at.t else PICKUP;
        var out := Out((last.s + ds) % M16, (last.t + dt) % M32);
        [out] + Advance(Known(Out(s, t)), out, run[1..])
  }

  /** The previous input of the running segment. */
  datatype LastInput = Unknown | Known(at: Out)

  predicate Consistent(st: State) {
    st.initialized ==>
      st.lastOutSeq == (st.lastInSeq - st.seqOffset) % M16 && st.lastOutTs == (st.lastInTs - st.tsOffset) % M32
  }

  function Previous(st: State): LastInput {
    if st.initialized then Known(Out(st.lastInSeq, st.lastInTs)) else Unknown
  }

  lemma ShiftMod(a: int, b: int, x: int, m: int)
    requires m > 0
    ensures ((a - b) % m + (x - a)) % m == (x - b) % m
  {
    ModAdd(a - b, x - a, m);
  }

  lemma ModAdd(x: int, y: int, m: int)
    requires m > 0
    ensures (x % m + y) % m == (x + y) % m
  {
    var k := x / m;
    assert x == k * m + x % m;
    ModShift(x % m + y, k, m);
  }

  lemma ModShift(x: int, k: int, m: int)
    requires m > 0
    ensures (k * m + x) % m == x % m
  {
    var q, r := x / m, x % m;
    assert k * m + x == (k + q) * m + r;
    DivUnique(k * m + x, k + q, r, m);
  }

  lemma DivUnique(x: int, q: int, r: int, m: int)
    requires m > 0 && x == q * m + r && 0 <= r < m
    ensures x % m == r
  {
    var p := x / m;
    assert x == p * m + x % m;
    assert (q - p) * m == q * m - p * m;
    MultipleIsBig(q - p, m);
  }

  lemma MultipleIsBig(k: int, m: int)
    requires m > 0
    ensures k >= 1 ==> k * m >= m
    ensures k <= -1 ==> k * m <= -m
  {
    assert k * m - m == (k - 1) * m && k * m + m == (k + 1) * m;
    assert k >= 1 ==> (k - 1) * m >= 0;
    assert k <= -1 ==> (k + 1) * m <= 0;
  }

  /** What one packet adds to the previous output. */
  lemma PacketAdvances(st: State, s: Word16, t: Word32)
    requires Consistent(st)
    ensures var z, prev := Rewritten(st, s, t), Previous(st);
      z.lastOutSeq == (st.lastOutSeq + if prev.Known? then s - prev.at.s else 1) % M16
      && z.lastOutTs == (st.lastOutTs + if prev.Known? then t - prev.at.t else PICKUP) % M32
      && Consistent(z)
  {
    if st.initialized {
      ShiftMod(st.lastInSeq, st.seqOffset, s, M16);
      ShiftMod(st.lastInTs, st.tsOffset, t, M32);
    } else {
      PickUp(s, st.lastOutSeq + 1, M16);
      PickUp(t, st.lastOutTs + PICKUP, M32);
    }
  }

  /** The offset form computes the advancing form, for every run. */
  lemma {:induction false} OffsetsAdvance(st: State, run: seq<Event>)
    requires Consistent(st)
    ensures Outputs(st, run) == Advance(Previous(st), Out(st.lastOutSeq, st.lastOutTs), run)
    decreases run
  {
    if run != [] {
      if run[0].Packet? { PacketAdvances(st, run[0].s, run[0].t); }
      OffsetsAdvance(Step(st, run[0]), run[1..]);
    }
  }

  lemma PickUp(x: int, y: int, m: int)
    requires m > 0
    ensures (x - (x - y) % m) % m == y % m
  {
    var k := (x - y) / m;
    assert x - y == k * m + (x - y) % m;
    ModShift(y, k, m);
  }

  predicate NoReset(run: seq<Event>) { forall e :: e in run ==> e.Packet? }

  /** Within a segment all differences between outputs are the differences
      between inputs, modulo the field widths. */
  lemma {:induction false} DifferencesKept(st: State, run: seq<Event>, i: nat, j: nat)
    requires NoReset(run) && i < |run| && j < |run|
    ensures |Outputs(st, run)| == |run|
    ensures var o := Outputs(st, run);
      (o[j].s - o[i].s) % M16 == (run[j].s - run[i].s) % M16 && (o[j].t - o[i].t) % M32 == (run[j].t - run[i].t) % M32
  {
    var so, to := Step(st, run[0]).seqOffset, Step(st, run[0]).tsOffset;
    var o := Outputs(st, run);
    assert run[0] in run;
    SegmentShift(st, run, so, to);
    assert o[i].s == (run[i].s - so) % M16 && o[j].s == (run[j].s - so) % M16;
    assert o[i].t == (run[i].t - to) % M32 && o[j].t == (run[j].t - to) % M32;
    DiffMod(run[j].s - so, run[i].s - so, M16);
    DiffMod(run[j].t - to, run[i].t - to, M32);
  }

  lemma DiffMod(x: int, y: int, m: int)
    requires m > 0
    ensures (x % m - y % m) % m == (x - y) % m
  {
    ModAdd(x, -(y % m), m);
    var k := y / m;
    assert y == k * m + y % m;
    ModShift(x - y, k, m);
  }

  lemma {:induction false} SegmentShift(st: State, run: seq<Event>, so: Word16, to: Word32)
    requires NoReset(run)
    requires run != [] ==> run[0].Packet? && Step(st, run[0]).seqOffset == so && Step(st, run[0]).tsOffset == to
    ensures |Outputs(st, run)| == |run|
    ensures forall i :: 0 <= i < |run| ==>
      run[i].Packet? && Outputs(st, run)[i] == Out((run[i].s - so) % M16, (run[i].t - to) % M32)
    decreases run
  {
    if run != [] {
      assert forall e :: e in run[1..] ==> e in run;
      if |run| > 1 { assert run[1] in run; }
      SegmentShift(Step(st, run[0]), run[1..], so, to);
    }
  }

  /** Each segment is contiguous on input: no gap, no reordering. */
  predicate Gapless(prev: LastInput, run: seq<Event>)
    decreases run
  {
    run == [] ||
    match run[0]
    case Reset => Gapless(Unknown, run[1..])
    case Packet(s, t) => (prev.Known? ==> s == (prev.at.s + 1) % M16) && Gapless(Known(Out(s, t)), run[1..])
  }

  lemma {:induction false} GaplessAdvance(prev: LastInput, last: Out, run: seq<Event>, k: nat)
    requires Gapless(prev, run) && last.s == k % M16
    ensures forall i :: 0 <= i < |Advance(prev, last, run)| ==> Advance(prev, last, run)[i].s == (k + 1 + i) % M16
    decreases run
  {
    if run != [] {
      match run[0]
      case Reset => GaplessAdvance(Unknown, last, run[1..], k);
      case Packet(s, t) =>
        var o := Advance(prev, last, run);
        assert o[0].s == (k + 1) % M16 by {
          ModAdd(k, 1, M16);
          if prev.Known? {
            ModAdd(last.s, s - prev.at.s, M16);
            assert s - prev.at.s == 1 || s - prev.at.s == 1 - M16;
            ModShift(last.s + 1, -1, M16);
          }
        }
        GaplessAdvance(Known(Out(s, t)), o[0], run[1..], k + 1);
        assert o[1..] == Advance(Known(Out(s, t)), o[0], run[1..]);
    }
  }

  /** However often the source is switched, gapless sources give the subscriber
      one gapless wrapped sequence 1, 2, 3, ... */
  lemma ContinuousOutput(run: seq<Event>)
    requires Gapless(Unknown, run)
    ensures forall i :: 0 <= i < |Outputs(FRESH, run)| ==> Outputs(FRESH, run)[i].s == (i + 1) % M16
  {
    OffsetsAdvance(FRESH, run);
    GaplessAdvance(Unknown, Out(0, 0), run, 0);
  }
}
