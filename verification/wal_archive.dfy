/** WAL positions, segment names and archive gaps. */
module WalArchive {
  import opened Common
  import opened Ordering
  import opened Division
  import opened Hex

  function Shr(x: int, k: nat): int
    requires 0 <= x
  {
    x / Pow2(k)
  }

  // ---------------------------------------------------------------- segment size

  /** The checks `parse_segment_size` makes on the byte count it has read. */
  predicate AcceptsSize(value: int) {
    0x10_0000 <= value <= 0x4000_0000 && And(value, value - 1) == 0
  }

  /** A legal segment size is 2^k for some k from 20 to 30. */
  ghost predicate IsSize(size: int, k: nat) { 20 <= k <= 30 && size == Pow2(k) }

  lemma SizeAcceptedIff(value: int)
    ensures AcceptsSize(value) <==> exists k :: IsSize(value, k)
  {
    Pow2Small();
    if 1 <= value {
      ClearLowestBitIff(value);
      if AcceptsSize(value) {
        var k: nat :| value == Pow2(k);
        if k < 20 { Pow2Monotone(k, 20); }
        if k > 30 { Pow2Monotone(30, k); }
        assert IsSize(value, k);
      }
    }
    forall k | IsSize(value, k) ensures AcceptsSize(value) {
      Pow2Monotone(20, k);
      Pow2Monotone(k, 30);
    }
  }

  // ---------------------------------------------------------------- positions

  function FormatLsn(value: int): string
    requires 0 <= value
  {
    ToHex(value / 0x1_0000_0000) + "/" + ToHex(value % 0x1_0000_0000)
  }

  predicate IsSpace(c: char) {
    var n := c as int;
    9 <= n <= 13 || 28 <= n <= 32 || n == 0x85 || n == 0xA0 || n == 0x1680 || 0x2000 <= n <= 0x200A
    || n == 0x2028 || n == 0x2029 || n == 0x202F || n == 0x205F || n == 0x3000
  }

  function Strip(s: string): string {
    if s != [] && IsSpace(s[0]) then Strip(s[1..])
    else if s != [] && IsSpace(s[|s| - 1]) then Strip(s[..|s| - 1])
    else s
  }

  function SlashAt(s: string): nat
    ensures SlashAt(s) <= |s|
    ensures forall i :: 0 <= i < SlashAt(s) ==> s[i] != '/'
    ensures SlashAt(s) < |s| ==> s[SlashAt(s)] == '/'
  {
    if s == [] || s[0] == '/' then 0 else 1 + SlashAt(s[1..])
  }

  predicate IsLsnPart(s: string) { 1 <= |s| <= 8 && AllHex(s) }

  function Join(hi: int, lo: int): int { hi * 0x1_0000_0000 + lo }

  function ParseTrimmed(s: string): Option<int> {
    var i := SlashAt(s);
    if i < |s| && IsLsnPart(s[..i]) && IsLsnPart(s[i + 1..]) then Some(Join(Value(s[..i]), Value(s[i + 1..]))) else None
  }

  function ParseLsn(text: string): Option<int> { ParseTrimmed(Strip(text)) }

  lemma StripKeeps(s: string)
    requires s != [] && !IsSpace(s[0]) && !IsSpace(s[|s| - 1])
    ensures Strip(s) == s
  {
  }

  /** Printing and parsing a position undo each other exactly on 64-bit positions. */
  lemma LsnRoundTripIff(value: int)
    requires 0 <= value
    ensures ParseLsn(FormatLsn(value)) == if value < 0x1_0000_0000_0000_0000 then Some(value) else None
  {
    var hi, lo := value / 0x1_0000_0000, value % 0x1_0000_0000;
    FitsIff(hi);
    FitsIff(lo);
    ParsePrinted(hi, lo);
    assert Join(hi, lo) == value;
  }

  lemma FitsIff(n: int)
    requires 0 <= n
    ensures 1 <= |ToHex(n)| && (|ToHex(n)| <= 8 <==> n < 0x1_0000_0000)
  {
    ToHexRoundTrip(n);
    DigitsIff(n, 8);
    Pow2Small();
  }

  lemma ParsePrinted(hi: int, lo: int)
    requires 0 <= hi && 0 <= lo
    ensures ParseLsn(ToHex(hi) + "/" + ToHex(lo))
            == if |ToHex(hi)| <= 8 && |ToHex(lo)| <= 8 then Some(Join(hi, lo)) else None
  {
    ToHexRoundTrip(hi);
    ToHexRoundTrip(lo);
    var a, b := ToHex(hi), ToHex(lo);
    var s := a + "/" + b;
    assert Strip(s) == s by {
      assert s[0] == a[0] && s[|s| - 1] == b[|b| - 1];
      StripKeeps(s);
    }
    ParseParts(a, b);
  }

  lemma ParseParts(a: string, b: string)
    requires a != [] && b != [] && AllUpperHex(a) && AllUpperHex(b)
    ensures ParseTrimmed(a + "/" + b) == if |a| <= 8 && |b| <= 8 then Some(Join(Value(a), Value(b))) else None
  {
    var s := a + "/" + b;
    SlashIsFirst(a, b);
    assert s[..|a|] == a && s[|a| + 1..] == b;
  }

  lemma {:induction false} SlashIsFirst(a: string, b: string)
    requires AllUpperHex(a)
    ensures SlashAt(a + "/" + b) == |a|
  {
    var s := a + "/" + b;
    assert s[|a|] == '/';
    assert forall i :: 0 <= i < |a| ==> s[i] != '/';
  }

  // ---------------------------------------------------------------- segments

  datatype Segment = Segment(timeline: int, log: int, segno: int) {
    predicate Unsigned() { 0 <= timeline && 0 <= log && 0 <= segno }

    function Name(): string
      requires Unsigned()
    {
      ToHex8(timeline) + ToHex8(log) + ToHex8(segno)
    }

    function Index(size: int): int
      requires 0 <= size && 1 <= BitLength(size) <= 33
    {
      log * SegmentsPerLog(size) + segno
    }
  }

  function SegmentHolding(lsn: int, size: int): (int, int)
    requires 0 <= lsn && 0 <= size && 1 <= BitLength(size)
  {
    (lsn / 0x1_0000_0000, Shr(lsn % 0x1_0000_0000, BitLength(size) - 1))
  }

  function SegmentsPerLog(size: int): int
    requires 0 <= size && 1 <= BitLength(size) <= 33
  {
    Pow2(32 - (BitLength(size) - 1))
  }

  function ParseSegment(name: string): Option<Segment> {
    if |name| == 24 && AllUpperHex(name)
    then Some(Segment(Value(name[..8]), Value(name[8..16]), Value(name[16..])))
    else None
  }

  predicate Fits(x: int) { 0 <= x < 0x1_0000_0000 }

  /** A segment name parses back exactly when every field fits its eight digits. */
  lemma NameRoundTripIff(s: Segment)
    requires s.Unsigned()
    ensures ParseSegment(s.Name()) == Some(s) <==> Fits(s.timeline) && Fits(s.log) && Fits(s.segno)
    ensures ParseSegment(s.Name()) == Some(s) || ParseSegment(s.Name()) == None
  {
    ToHex8RoundTrip(s.timeline);
    ToHex8RoundTrip(s.log);
    ToHex8RoundTrip(s.segno);
    Pow2Small();
    var a, b, c := ToHex8(s.timeline), ToHex8(s.log), ToHex8(s.segno);
    if |a| == 8 && |b| == 8 && |c| == 8 {
      assert s.Name()[..8] == a && s.Name()[8..16] == b && s.Name()[16..] == c;
    }
  }

  predicate TupleLt(a: Segment, b: Segment) {
    a.timeline < b.timeline
    || (a.timeline == b.timeline && (a.log < b.log || (a.log == b.log && a.segno < b.segno)))
  }

  /** Sorting file names sorts segments. */
  lemma NameOrderIsTupleOrder(a: Segment, b: Segment)
    requires Fits(a.timeline) && Fits(a.log) && Fits(a.segno) && Fits(b.timeline) && Fits(b.log) && Fits(b.segno)
    ensures StrLt(a.Name(), b.Name()) <==> TupleLt(a, b)
  {
    FieldOrder(a.timeline, b.timeline);
    FieldOrder(a.log, b.log);
    FieldOrder(a.segno, b.segno);
    var p, q := ToHex8(a.timeline), ToHex8(b.timeline);
    var x, y := ToHex8(a.log), ToHex8(b.log);
    BlockOrder(p, x + ToHex8(a.segno), q, y + ToHex8(b.segno));
    BlockOrder(x, ToHex8(a.segno), y, ToHex8(b.segno));
    assert a.Name() == p + (x + ToHex8(a.segno)) && b.Name() == q + (y + ToHex8(b.segno));
  }

  lemma FieldOrder(x: int, y: int)
    requires Fits(x) && Fits(y)
    ensures |ToHex8(x)| == |ToHex8(y)| == 8
    ensures StrLt(ToHex8(x), ToHex8(y)) <==> x < y
    ensures ToHex8(x) == ToHex8(y) <==> x == y
  {
    ToHex8RoundTrip(x);
    ToHex8RoundTrip(y);
    Pow2Small();
    ValueOrder(ToHex8(x), ToHex8(y));
  }

  // ---------------------------------------------------------------- index arithmetic

  lemma SizeFacts(size: int, k: nat)
    requires IsSize(size, k)
    ensures BitLength(size) == k + 1 && size >= 1
    ensures SegmentsPerLog(size) == Pow2(32 - k) >= 2 && SegmentsPerLog(size) * size == 0x1_0000_0000
  {
    BitLengthOfPow2(k);
    Pow2Sum(32 - k, k);
    Pow2Small();
    Pow2Monotone(1, 32 - k);
    assert Pow2(1) == 2;
  }

  /** For every legal size, the index of the segment holding a position is the position
      divided by the size, and its segment number is in range. */
  lemma HoldingIndex(lsn: int, size: int, k: nat, timeline: int)
    requires 0 <= lsn && IsSize(size, k)
    ensures 1 <= BitLength(size) <= 33
    ensures var (log, segno) := SegmentHolding(lsn, size);
            && Segment(timeline, log, segno).Index(size) == lsn / size
            && 0 <= segno < SegmentsPerLog(size)
  {
    SizeFacts(size, k);
    SplitIndex(lsn, SegmentsPerLog(size), size);
  }

  lemma SplitIndex(lsn: int, q: int, p: int)
    requires 0 <= lsn && 1 <= p && q * p == 0x1_0000_0000
    ensures (lsn / 0x1_0000_0000) * q + (lsn % 0x1_0000_0000) / p == lsn / p && 0 <= (lsn % 0x1_0000_0000) / p < q
  {
    var h, l := lsn / 0x1_0000_0000, lsn % 0x1_0000_0000;
    assert p * (h * q) == h * (q * p) == h * 0x1_0000_0000;
    DivideOut(h * q, p, l);
    BelowQuotient(l, q, p);
  }

  predicate InRange(s: Segment, size: int)
    requires 0 <= size && 1 <= BitLength(size) <= 33
  {
    0 <= s.segno < SegmentsPerLog(size)
  }

  /** The tuple comparison of the coverage test. */
  predicate Reaches(newest: Segment, needed: (int, int)) {
    newest.log > needed.0 || (newest.log == needed.0 && newest.segno >= needed.1)
  }

  /** For in-range segment numbers the coverage test compares indexes, hence positions. */
  lemma CoverageIsIndexOrder(newest: Segment, lsn: int, size: int, k: nat)
    requires 0 <= lsn && IsSize(size, k) && 1 <= BitLength(size) <= 33 && InRange(newest, size)
    ensures Reaches(newest, SegmentHolding(lsn, size)) <==> newest.Index(size) >= lsn / size
  {
    HoldingIndex(lsn, size, k, 0);
    var (log, segno) := SegmentHolding(lsn, size);
    var q := SegmentsPerLog(size);
    MulOrder(q, newest.log, log);
    MulOrder(q, log, newest.log);
  }

  lemma LogStart(log: int, q: int, p: int)
    requires 0 <= log && 1 <= p && q * p == 0x1_0000_0000
    ensures (log * 0x1_0000_0000) / p == log * q
  {
    assert p * (log * q) == log * (q * p);
    QuotientIsUnique(log * 0x1_0000_0000, p, log * q, 0);
  }

  /** A segment number past its log has an index at or past the start of the next log, */
  lemma OutOfRangeIsPastLog(newest: Segment, size: int, k: nat)
    requires IsSize(size, k) && 1 <= BitLength(size) <= 33
    requires 0 <= newest.log && SegmentsPerLog(size) <= newest.segno
    ensures newest.Index(size) >= ((newest.log + 1) * 0x1_0000_0000) / size
  {
    SizeFacts(size, k);
    PastLog(newest.log, newest.segno, SegmentsPerLog(size), size);
  }

  lemma PastLog(log: int, segno: int, q: int, p: int)
    requires 0 <= log && q <= segno && 1 <= p && q * p == 0x1_0000_0000
    ensures log * q + segno >= ((log + 1) * 0x1_0000_0000) / p
  {
    LogStart(log + 1, q, p);
    assert (log + 1) * q == log * q + q;
  }

  /** and yet fails the test there. */
  lemma NextLogIsNotReached(newest: Segment, size: int)
    requires 0 <= size && 1 <= BitLength(size) <= 33 && 0 <= newest.log
    ensures !Reaches(newest, SegmentHolding((newest.log + 1) * 0x1_0000_0000, size))
  {
    QuotientIsUnique((newest.log + 1) * 0x1_0000_0000, 0x1_0000_0000, newest.log + 1, 0);
  }

  /** So the coverage test compares positions, for every position, exactly when the segment
      number is one the segment size allows. */
  lemma CoverageIsIndexOrderIff(newest: Segment, size: int, k: nat)
    requires IsSize(size, k) && 1 <= size && 1 <= BitLength(size) <= 33 && 0 <= newest.log && 0 <= newest.segno
    ensures (forall lsn :: 0 <= lsn ==> CoversAlike(newest, lsn, size)) <==> InRange(newest, size)
  {
    if InRange(newest, size) {
      forall lsn | 0 <= lsn ensures CoversAlike(newest, lsn, size) {
        CoverageIsIndexOrder(newest, lsn, size, k);
      }
    } else {
      OutOfRangeIsPastLog(newest, size, k);
      NextLogIsNotReached(newest, size);
      assert !CoversAlike(newest, (newest.log + 1) * 0x1_0000_0000, size);
    }
  }

  /** The tuple test and the positions agree on whether the segment is at or past `lsn`. */
  ghost predicate CoversAlike(newest: Segment, lsn: int, size: int)
    requires 0 <= lsn && 1 <= size && 1 <= BitLength(size) <= 33
  {
    Reaches(newest, SegmentHolding(lsn, size)) <==> newest.Index(size) >= lsn / size
  }

  // ---------------------------------------------------------------- gaps

  predicate Adjacent(previous: Segment, following: Segment) {
    if following.log == previous.log then following.segno == previous.segno + 1
    else following.log == previous.log + 1 && following.segno == 0
  }

  datatype Gap = Gap(timeline: int, after: Segment, before: Segment, missing: Option<int>)

  function Missing(p: Segment, f: Segment, size: int): int
    requires 0 <= size && 1 <= BitLength(size) <= 33
  {
    f.Index(size) - p.Index(size) - 1
  }

  function GapAt(timeline: int, p: Segment, f: Segment, size: Option<int>): Gap
    requires size.Some? ==> 0 <= size.value && 1 <= BitLength(size.value) <= 33
  {
    Gap(timeline, p, f, if size.Some? then Some(Missing(p, f, size.value)) else None)
  }

  /** The gaps among the first `n` segments of a timeline, oldest first. */
  ghost function GapsUpTo(timeline: int, segs: seq<Segment>, n: nat, size: Option<int>): seq<Gap>
    requires n <= |segs| && (size.Some? ==> 0 <= size.value && 1 <= BitLength(size.value) <= 33)
  {
    if n < 2 then []
    else
      GapsUpTo(timeline, segs, n - 1, size)
      + if Adjacent(segs[n - 2], segs[n - 1]) then [] else [GapAt(timeline, segs[n - 2], segs[n - 1], size)]
  }

  ghost function AllGaps(archive: seq<(int, seq<Segment>)>, size: Option<int>): seq<Gap>
    requires size.Some? ==> 0 <= size.value && 1 <= BitLength(size.value) <= 33
  {
    if archive == [] then []
    else
      var last := archive[|archive| - 1];
      AllGaps(archive[..|archive| - 1], size) + GapsUpTo(last.0, last.1, |last.1|, size)
  }

  /** `gaps`: each timeline on its own, in timeline order. */
  method FindGaps(archive: seq<(int, seq<Segment>)>, size: Option<int>) returns (found: seq<Gap>)
    requires size.Some? ==> 0 <= size.value && 1 <= BitLength(size.value) <= 33
    ensures found == AllGaps(archive, size)
  {
    found := [];
    for t := 0 to |archive|
      invariant found == AllGaps(archive[..t], size)
    {
      var (timeline, segs) := archive[t];
      ghost var before := found;
      assert archive[..t + 1][..t] == archive[..t];
      for n := 0 to |segs|
        invariant found == before + GapsUpTo(timeline, segs, n, size)
      {
        if n >= 1 && !Adjacent(segs[n - 1], segs[n]) {
          found := found + [GapAt(timeline, segs[n - 1], segs[n], size)];
        }
      }
    }
    assert archive[..|archive|] == archive;
  }
}
