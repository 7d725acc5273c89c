/** What the gap report and the coverage test say about the segments really archived. */
module WalProperties {
  import opened Common
  import opened Division
  import opened Hex
  import opened WalArchive

  ghost predicate Sized(size: int) { 0 <= size && 1 <= BitLength(size) <= 33 && SegmentsPerLog(size) >= 2 }

  /** A timeline as `read_inventory` builds it: sorted, without repeats, with segment numbers
      that the segment size allows. */
  ghost predicate Timeline(segs: seq<Segment>, size: int)
    requires Sized(size)
  {
    && (forall i :: 0 <= i < |segs| ==>
          0 <= segs[i].log && InRange(segs[i], size) && segs[i].timeline == segs[0].timeline)
    && (forall i :: 0 < i < |segs| ==> TupleLt(segs[i - 1], segs[i]))
  }

  /** A crossing into the next log that skips the rest of the previous one. */
  predicate HidesHole(p: Segment, f: Segment, size: int)
    requires 0 <= size && 1 <= BitLength(size) <= 33
  {
    f.log == p.log + 1 && f.segno == 0 && p.segno + 1 < SegmentsPerLog(size)
  }

  lemma IndexStep(p: Segment, f: Segment, size: int)
    requires Sized(size)
    ensures f.log == p.log ==> f.Index(size) - p.Index(size) == f.segno - p.segno
    ensures f.log == p.log + 1 ==> f.Index(size) - p.Index(size) == SegmentsPerLog(size) + f.segno - p.segno
    ensures f.log >= p.log + 2 ==> f.Index(size) - p.Index(size) >= 2 * SegmentsPerLog(size) + f.segno - p.segno
  {
    var q := SegmentsPerLog(size);
    assert f.log * q - p.log * q == (f.log - p.log) * q;
    MulOrder(q, 2, f.log - p.log);
  }

  /** `adjacent` is exact within a log; at a crossing it also accepts a hidden hole. */
  lemma AdjacentIff(p: Segment, f: Segment, size: int)
    requires Sized(size) && InRange(p, size) && InRange(f, size) && TupleLt(p, f) && p.timeline == f.timeline
    ensures Adjacent(p, f) <==> f.Index(size) == p.Index(size) + 1 || HidesHole(p, f, size)
    ensures !(f.Index(size) == p.Index(size) + 1 && HidesHole(p, f, size))
    ensures !Adjacent(p, f) ==> Missing(p, f, size) >= 1
  {
    IndexStep(p, f, size);
  }

  /** So an archive may pass the check with segments missing. */
  lemma CrossingHidesHole(size: int, segno: int)
    requires Sized(size) && 0 <= segno && segno + 1 < SegmentsPerLog(size)
    ensures var segs := [Segment(1, 0, segno), Segment(1, 1, 0)];
            && Timeline(segs, size) && GapsUpTo(1, segs, 2, Some(size)) == []
            && forall i :: 0 <= i < 2 ==> segs[i].Index(size) != segno + 1
  {
  }

  // ---------------------------------------------------------------- accounting

  ghost function SumMissing(gaps: seq<Gap>): int {
    if gaps == [] then 0
    else
      var last := gaps[|gaps| - 1].missing;
      SumMissing(gaps[..|gaps| - 1]) + if last.Some? then last.value else 0
  }

  /** The segments skipped at log crossings among the first `n` segments. */
  ghost function SumCrossings(segs: seq<Segment>, n: nat, size: int): int
    requires n <= |segs| && Sized(size)
  {
    if n < 2 then 0
    else
      var p, f := segs[n - 2], segs[n - 1];
      SumCrossings(segs, n - 1, size)
      + if f.log == p.log + 1 && f.segno == 0 then SegmentsPerLog(size) - 1 - p.segno else 0
  }

  lemma SumMissingAfter(gaps: seq<Gap>, g: Gap)
    ensures SumMissing(gaps + [g]) == SumMissing(gaps) + if g.missing.Some? then g.missing.value else 0
  {
  }

  /** Gap accounting: the span of a timeline is what is archived, plus what the report counts
      as missing, plus what the crossings hide. */
  lemma {:induction false} SpanIsAccountedFor(timeline: int, segs: seq<Segment>, n: nat, size: int)
    requires Sized(size) && 1 <= n <= |segs|
    ensures segs[n - 1].Index(size) - segs[0].Index(size) + 1
         == n + SumMissing(GapsUpTo(timeline, segs, n, Some(size))) + SumCrossings(segs, n, size)
  {
    if n >= 2 {
      SpanIsAccountedFor(timeline, segs, n - 1, size);
      var p, f, gaps := segs[n - 2], segs[n - 1], GapsUpTo(timeline, segs, n - 1, Some(size));
      IndexStep(p, f, size);
      if Adjacent(p, f) {
        assert GapsUpTo(timeline, segs, n, Some(size)) == gaps;
      } else {
        SumMissingAfter(gaps, GapAt(timeline, p, f, Some(size)));
      }
    } else {
      assert GapsUpTo(timeline, segs, n, Some(size)) == [];
    }
  }

  /** Every reported gap is real, and every pair of true neighbours goes unreported. */
  lemma {:induction false} ReportedGapsAreReal(timeline: int, segs: seq<Segment>, n: nat, size: int)
    requires Sized(size) && Timeline(segs, size) && n <= |segs|
    ensures forall g :: g in GapsUpTo(timeline, segs, n, Some(size)) ==>
              && g.missing.Some? && g.missing.value >= 1
              && g.before.Index(size) == g.after.Index(size) + g.missing.value + 1
  {
    if n >= 2 {
      ReportedGapsAreReal(timeline, segs, n - 1, size);
      AdjacentIff(segs[n - 2], segs[n - 1], size);
    }
  }

  // ---------------------------------------------------------------- coverage

  ghost predicate Contiguous(segs: seq<Segment>, size: int)
    requires Sized(size)
  {
    forall i :: 0 < i < |segs| ==> segs[i].Index(size) == segs[i - 1].Index(size) + 1
  }

  ghost predicate NoHiddenHole(segs: seq<Segment>, size: int)
    requires Sized(size)
  {
    forall i :: 0 < i < |segs| ==> !HidesHole(segs[i - 1], segs[i], size)
  }

  lemma {:induction false} NoGapsUpTo(timeline: int, segs: seq<Segment>, n: nat, size: Option<int>)
    requires n <= |segs| && (size.Some? ==> 0 <= size.value && 1 <= BitLength(size.value) <= 33)
    ensures GapsUpTo(timeline, segs, n, size) == [] <==> forall i :: 0 < i < n ==> Adjacent(segs[i - 1], segs[i])
  {
    if n >= 2 {
      NoGapsUpTo(timeline, segs, n - 1, size);
    }
  }

  /** The chain is unbroken exactly when no gap is reported and no crossing hides one. */
  lemma UnbrokenIff(timeline: int, segs: seq<Segment>, size: int)
    requires Sized(size) && Timeline(segs, size)
    ensures Contiguous(segs, size) <==> GapsUpTo(timeline, segs, |segs|, Some(size)) == [] && NoHiddenHole(segs, size)
  {
    NoGapsUpTo(timeline, segs, |segs|, Some(size));
    forall i | 0 < i < |segs|
      ensures segs[i].Index(size) == segs[i - 1].Index(size) + 1
              <==> Adjacent(segs[i - 1], segs[i]) && !HidesHole(segs[i - 1], segs[i], size)
    {
      AdjacentIff(segs[i - 1], segs[i], size);
    }
  }

  lemma {:induction false} ContiguousIndex(segs: seq<Segment>, size: int, i: int)
    requires Sized(size) && Contiguous(segs, size) && 0 <= i < |segs|
    ensures segs[i].Index(size) == segs[0].Index(size) + i
  {
    if i != 0 {
      ContiguousIndex(segs, size, i - 1);
    }
  }

  ghost predicate Holds(segs: seq<Segment>, size: int, index: int)
    requires Sized(size)
  {
    exists i :: 0 <= i < |segs| && segs[i].Index(size) == index
  }

  /** What a covered, unbroken archive really promises: every segment from the one holding the
      dump's position to the archive's end is there, exactly when the archive also starts
      early enough. The coverage test alone fixes only the upper end. */
  lemma CoveredArchiveIsComplete(timeline: int, segs: seq<Segment>, lsn: int, size: int)
    requires AcceptsSize(size) && Sized(size) && segs != [] && Timeline(segs, size) && 0 <= lsn
    requires GapsUpTo(timeline, segs, |segs|, Some(size)) == [] && NoHiddenHole(segs, size)
    requires Reaches(segs[|segs| - 1], SegmentHolding(lsn, size))
    ensures segs[0].Index(size) <= lsn / size
            <==> forall n :: lsn / size <= n <= segs[|segs| - 1].Index(size) ==> Holds(segs, size, n)
  {
    SizeAcceptedIff(size);
    var k :| IsSize(size, k);
    var last := |segs| - 1;
    CoverageIsIndexOrder(segs[last], lsn, size, k);
    UnbrokenIff(timeline, segs, size);
    ContiguousIndex(segs, size, last);
    forall n | segs[0].Index(size) <= n <= segs[last].Index(size) ensures Holds(segs, size, n) {
      ContiguousIndex(segs, size, n - segs[0].Index(size));
    }
    if Holds(segs, size, lsn / size) {
      var i :| 0 <= i < |segs| && segs[i].Index(size) == lsn / size;
      ContiguousIndex(segs, size, i);
    }
  }
}
