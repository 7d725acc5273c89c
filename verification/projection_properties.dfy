/** What the projection guarantees over whole delivery sequences: exactly-once, in-order
    output, and a final state that does not depend on the order of delivery. */
module ProjectionProperties {
  import opened Common
  import opened Events
  import opened Projection

  // ---------------------------------------------------------------- invariant

  /** Every row repeats its own key columns. */
  ghost predicate Faithful(t: Table) {
    forall n :: n in t ==> t[n] == RowOf(t[n].payload) && t[n].payload.caseSeq == n
  }

  /** The rows a stream holds, applied or buffered, by position. */
  ghost function Content(st: Stream): Table { st.buffer + st.applied }

  ghost predicate IsPrefix(applied: Table, position: nat) {
    forall n :: n in applied <==> 1 <= n <= position
  }

  /** The applied keys are exactly 1..position and everything buffered lies beyond it. */
  ghost predicate DrainReady(st: Stream) {
    && Faithful(st.applied) && Faithful(st.buffer)
    && IsPrefix(st.applied, st.position)
    && (forall n :: n in st.buffer ==> st.position < n)
    && UniqueIds(Content(st))
  }

  /** The settled invariant: nothing buffered could be applied next. */
  ghost predicate Inv(st: Stream) {
    DrainReady(st) && st.position + 1 !in st.buffer
  }

  ghost function Payloads(applied: Table, position: nat): (log: seq<DomainEvent>)
    requires IsPrefix(applied, position)
    ensures |log| == position
    ensures forall i :: 0 <= i < position ==> log[i] == applied[i + 1].payload
  {
    seq(position, i requires 0 <= i < position => applied[i + 1].payload)
  }

  /** The applied ledger read in order: the output stream a consumer has seen. */
  ghost function AppliedLog(st: Stream): (log: seq<DomainEvent>)
    requires IsPrefix(st.applied, st.position)
  {
    Payloads(st.applied, st.position)
  }

  lemma PrefixExtends(applied: Table, position: nat, e: DomainEvent)
    requires IsPrefix(applied, position)
    ensures IsPrefix(applied[position + 1 := RowOf(e)], position + 1)
    ensures Payloads(applied[position + 1 := RowOf(e)], position + 1) == Payloads(applied, position) + [e]
  {
  }

  lemma MergeLaws(b: Table, a: Table, n: int, row: Row)
    requires n !in a
    ensures b[n := row] + a == (b + a)[n := row] == b + a[n := row]
    ensures n in b && b[n] == row ==> (b - {n}) + a[n := row] == b + a
  {
  }

  /** Moving the next buffered row over keeps the content and extends the output by it. */
  lemma MoveOne(st: Stream) returns (next: Stream)
    requires DrainReady(st) && st.position + 1 in st.buffer
    ensures var n := st.position + 1; var e := st.buffer[n].payload;
            next == Stream(n, st.applied[n := RowOf(e)], st.buffer - {n})
    ensures DrainReady(next) && Content(next) == Content(st)
    ensures AppliedLog(next) == AppliedLog(st) + [st.buffer[st.position + 1].payload]
    ensures !HasId(st.applied, st.buffer[st.position + 1].payload.Id())
  {
    var n := st.position + 1;
    var e := st.buffer[n].payload;
    next := Stream(n, st.applied[n := RowOf(e)], st.buffer - {n});
    PrefixExtends(st.applied, st.position, e);
    var c := Content(st);
    assert c[n] == RowOf(e);
    forall k | k in st.applied ensures st.applied[k].eventId != e.Id() {
      assert c[k] == st.applied[k];
    }
    FaithfulExtends(st.applied, e);
    MergeLaws(st.buffer, st.applied, n, RowOf(e));
  }

  lemma AppendAssociates(log: seq<DomainEvent>, e: DomainEvent, rest: seq<DomainEvent>)
    ensures [] + [e] + rest == [e] + rest
    ensures log + [e] + rest == log + ([e] + rest)
  {
  }

  /** On a ready stream the drain loop never fails and conserves the content. */
  lemma {:induction false} DrainSettles(st: Stream)
    requires DrainReady(st)
    ensures Drain(st).Ok?
    ensures var d := Drain(st).value;
            && Inv(d.stream) && Content(d.stream) == Content(st)
            && AppliedLog(d.stream) == AppliedLog(st) + d.applied
    decreases |st.buffer|
  {
    if st.position + 1 in st.buffer {
      var next := MoveOne(st);
      DropShrinks(st.buffer, st.position + 1);
      DrainSettles(next);
      DrainUnfold([], st);
      PrependNothing(Drain(st));
      var e, rest := st.buffer[st.position + 1].payload, Drain(next).value;
      AppendAssociates(AppliedLog(st), e, rest.applied);
    } else {
      assert AppliedLog(st) + [] == AppliedLog(st);
    }
  }

  // ---------------------------------------------------------------- one step

  /** Does a stored event clash with `e`: same id or same position, different content? */
  ghost predicate Clashes(st: Stream, e: DomainEvent) {
    exists n :: n in Content(st) && !Compatible(Content(st)[n].payload, e)
  }

  ghost predicate Stored(st: Stream, e: DomainEvent) {
    e.caseSeq in Content(st) && Content(st)[e.caseSeq] == RowOf(e)
  }

  /** A clash is refused as a conflict and changes nothing. */
  lemma ClashIsRefused(st: Stream, e: DomainEvent)
    requires Inv(st) && Clashes(st, e)
    ensures Ingest(st, e) == (st, Err(Conflict))
  {
  }

  /** A replayed event changes nothing and releases nothing, on either duplicate path. */
  lemma ReplayIsNeutral(st: Stream, e: DomainEvent)
    requires Inv(st) && Stored(st, e)
    ensures Ingest(st, e) == (st, Ok(IngestResult(
              if e.caseSeq <= st.position then Replay else BufferGap, [], st.position)))
  {
  }

  /** Neither clashing nor stored: no row has this id or this position. */
  lemma FreshIsUnknown(st: Stream, e: DomainEvent)
    requires Inv(st) && !Clashes(st, e) && !Stored(st, e)
    ensures e.caseSeq !in Content(st) && e.caseSeq > st.position
    ensures FindById(st.applied, e.Id()).None? && FindById(st.buffer, e.Id()).None?
    ensures UniqueIds(Content(st)[e.caseSeq := RowOf(e)])
  {
  }

  /** A fresh event beyond the next position is held back. */
  lemma FreshGapIsHeld(st: Stream, e: DomainEvent)
    requires Inv(st) && !Clashes(st, e) && !Stored(st, e) && e.caseSeq != st.position + 1
    ensures var (next, r) := Ingest(st, e);
            && Inv(next) && r == Ok(IngestResult(BufferGap, [], st.position))
            && next.position == st.position && AppliedLog(next) == AppliedLog(st)
            && Content(next) == Content(st)[e.caseSeq := RowOf(e)]
  {
    FreshIsUnknown(st, e);
    var held := Hold(st, e);
  }

  lemma FaithfulExtends(t: Table, e: DomainEvent)
    requires Faithful(t)
    ensures Faithful(t[e.caseSeq := RowOf(e)])
  {
  }

  lemma Hold(st: Stream, e: DomainEvent) returns (held: Stream)
    requires Inv(st) && e.caseSeq > st.position + 1
    requires UniqueIds(Content(st)[e.caseSeq := RowOf(e)])
    ensures held == st.(buffer := st.buffer[e.caseSeq := RowOf(e)])
    ensures Inv(held) && Content(held) == Content(st)[e.caseSeq := RowOf(e)]
  {
    var n := e.caseSeq;
    held := st.(buffer := st.buffer[n := RowOf(e)]);
    FaithfulExtends(st.buffer, e);
    MergeLaws(st.buffer, st.applied, n, RowOf(e));
    assert Content(held) == Content(st)[n := RowOf(e)];
  }

  /** A fresh event at the next position is released with everything it unblocks. */
  lemma FreshNextIsApplied(st: Stream, e: DomainEvent)
    requires Inv(st) && !Clashes(st, e) && !Stored(st, e) && e.caseSeq == st.position + 1
    ensures var (next, r) := Ingest(st, e);
            && r.Ok? && Inv(next) && r.value.decision == Apply
            && r.value.applied != [] && r.value.applied[0] == e
            && Content(next) == Content(st)[e.caseSeq := RowOf(e)]
            && AppliedLog(next) == AppliedLog(st) + r.value.applied
            && r.value.position == next.position
  {
    FreshIsUnknown(st, e);
    var advanced := Advance(st, e);
    DrainSettles(advanced);
    AppendAssociates(AppliedLog(st), e, Drain(advanced).value.applied);
  }

  lemma Advance(st: Stream, e: DomainEvent) returns (advanced: Stream)
    requires Inv(st) && e.caseSeq == st.position + 1
    requires e.caseSeq !in Content(st) && UniqueIds(Content(st)[e.caseSeq := RowOf(e)])
    ensures advanced == Stream(e.caseSeq, st.applied[e.caseSeq := RowOf(e)], st.buffer)
    ensures DrainReady(advanced) && Content(advanced) == Content(st)[e.caseSeq := RowOf(e)]
    ensures AppliedLog(advanced) == AppliedLog(st) + [e]
  {
    var n := e.caseSeq;
    advanced := Stream(n, st.applied[n := RowOf(e)], st.buffer);
    PrefixExtends(st.applied, st.position, e);
    FaithfulExtends(st.applied, e);
    MergeLaws(st.buffer, st.applied, n, RowOf(e));
  }

  /** What the decision of an accepted event means, read off the position before the step. */
  ghost function Routing(position: int, caseSeq: int): Decision {
    if caseSeq <= position then Replay else if caseSeq == position + 1 then Apply else BufferGap
  }

  /** The whole step: an ingest fails exactly on a clash, and always keeps the invariant. */
  lemma IngestStep(st: Stream, e: DomainEvent)
    requires Inv(st)
    ensures var (next, r) := Ingest(st, e);
            && Inv(next)
            && (r.Err? <==> Clashes(st, e))
            && (r.Err? ==> r.code == Conflict && next == st)
            && (r.Ok? ==> Content(next) == Content(st)[e.caseSeq := RowOf(e)]
                          && AppliedLog(next) == AppliedLog(st) + r.value.applied
                          && r.value.position == next.position
                          && r.value.decision == Routing(st.position, e.caseSeq))
  {
    if Clashes(st, e) {
      ClashIsRefused(st, e);
    } else if Stored(st, e) {
      ReplayIsNeutral(st, e);
      assert Content(st)[e.caseSeq := RowOf(e)] == Content(st);
      assert AppliedLog(st) + [] == AppliedLog(st);
    } else if e.caseSeq == st.position + 1 {
      FreshNextIsApplied(st, e);
    } else {
      FreshGapIsHeld(st, e);
      assert AppliedLog(st) + [] == AppliedLog(st);
    }
  }

  // ---------------------------------------------------------------- whole runs

  datatype RunResult = RunResult(stream: Stream, output: seq<DomainEvent>, conflicts: nat)

  /** Deliver a sequence of events, collecting every `applied` tuple in order. */
  ghost function Deliver(st: Stream, es: seq<DomainEvent>): RunResult {
    if es == [] then RunResult(st, [], 0)
    else
      var front := Deliver(st, es[..|es| - 1]);
      match Ingest(front.stream, es[|es| - 1])
      case (next, Err(_)) => RunResult(next, front.output, front.conflicts + 1)
      case (next, Ok(r)) => RunResult(next, front.output + r.applied, front.conflicts)
  }

  ghost function DeliverAll(es: seq<DomainEvent>): RunResult { Deliver(EMPTY_STREAM, es) }

  /** Exactly once and in order, for any traffic at all, conflicting events included: the
      concatenated output is the applied ledger 1..position, each position once. */
  lemma {:induction false} ExactlyOnceInOrder(es: seq<DomainEvent>)
    ensures var d := DeliverAll(es);
            && Inv(d.stream)
            && d.output == AppliedLog(d.stream)
            && (forall i :: 0 <= i < |d.output| ==> d.output[i].caseSeq == i + 1)
            && (forall i, j :: 0 <= i < j < |d.output| ==> d.output[i].Id() != d.output[j].Id())
  {
    if es == [] {
    } else {
      ExactlyOnceInOrder(es[..|es| - 1]);
      IngestStep(DeliverAll(es[..|es| - 1]).stream, es[|es| - 1]);
    }
    var st := DeliverAll(es).stream;
    forall i, j | 0 <= i < j < st.position
      ensures AppliedLog(st)[i].Id() != AppliedLog(st)[j].Id()
    {
      assert Content(st)[i + 1].payload == AppliedLog(st)[i] && Content(st)[j + 1].payload == AppliedLog(st)[j];
    }
  }

  /** Output already released is never taken back or rewritten by later deliveries. */
  lemma {:induction false} OutputOnlyGrows(es: seq<DomainEvent>, more: seq<DomainEvent>)
    ensures DeliverAll(es).output <= DeliverAll(es + more).output
  {
    if more == [] {
      assert es + more == es;
    } else {
      var all := es + more;
      assert all[..|all| - 1] == es + more[..|more| - 1];
      OutputOnlyGrows(es, more[..|more| - 1]);
    }
  }

  // ---------------------------------------------------------------- confluence

  /** Events that can all stem from one log. */
  ghost predicate OneLog(es: set<DomainEvent>) {
    forall a, b :: a in es && b in es ==> Compatible(a, b)
  }

  ghost function Delivered(es: seq<DomainEvent>): set<DomainEvent> { set e | e in es }

  ghost predicate HasSequence(es: set<DomainEvent>, n: int) {
    exists e :: e in es && e.caseSeq == n
  }

  ghost predicate RowsFrom(t: Table, es: set<DomainEvent>) {
    Faithful(t) && forall n :: n in t ==> t[n].payload in es
  }

  /** The declared end state for a set of delivered events: position is the largest `k` with
      1..k all delivered, the first `k` are applied and the rest are buffered. */
  ghost predicate IsProjectionOf(st: Stream, es: set<DomainEvent>) {
    && (forall n :: 1 <= n <= st.position ==> HasSequence(es, n))
    && !HasSequence(es, st.position + 1)
    && (forall n :: n in st.applied <==> 1 <= n <= st.position)
    && (forall n :: n in st.buffer <==> n > st.position && HasSequence(es, n))
    && RowsFrom(st.applied, es) && RowsFrom(st.buffer, es)
  }

  lemma SameRows(a: Table, b: Table, es: set<DomainEvent>)
    requires OneLog(es) && RowsFrom(a, es) && RowsFrom(b, es) && a.Keys == b.Keys
    ensures a == b
  {
    forall n | n in a ensures a[n] == b[n] {
      assert Compatible(a[n].payload, b[n].payload);
    }
  }

  /** The declared end state is unique. */
  lemma ProjectionIsUnique(a: Stream, b: Stream, es: set<DomainEvent>)
    requires OneLog(es) && IsProjectionOf(a, es) && IsProjectionOf(b, es)
    ensures a == b
  {
    assert a.position == b.position;
    assert forall n :: n in a.applied <==> n in b.applied;
    assert a.applied.Keys == b.applied.Keys;
    SameRows(a.applied, b.applied, es);
    assert forall n :: n in a.buffer <==> n in b.buffer;
    assert a.buffer.Keys == b.buffer.Keys;
    SameRows(a.buffer, b.buffer, es);
  }

  /** Over one log no delivery conflicts, and the content is exactly what was delivered. */
  lemma {:induction false} NoConflicts(es: seq<DomainEvent>)
    requires OneLog(Delivered(es))
    ensures var d := DeliverAll(es);
            && d.conflicts == 0 && Inv(d.stream)
            && (forall n :: n in Content(d.stream) ==> Content(d.stream)[n].payload in es)
            && (forall e :: e in es ==> Stored(d.stream, e))
  {
    ExactlyOnceInOrder(es);
    if es == [] {
    } else {
      var front, last := es[..|es| - 1], es[|es| - 1];
      assert Delivered(front) <= Delivered(es);
      NoConflicts(front);
      var st := DeliverAll(front).stream;
      forall n | n in Content(st) ensures Compatible(Content(st)[n].payload, last) {
        assert Content(st)[n].payload in Delivered(es) && last in Delivered(es);
      }
      IngestStep(st, last);
      forall e | e in es ensures Stored(DeliverAll(es).stream, e) {
        assert e in front || e == last;
        assert e in Delivered(es) && last in Delivered(es) && Compatible(e, last);
      }
    }
  }

  lemma HeldIsProjection(st: Stream, es: set<DomainEvent>)
    requires Inv(st)
    requires forall n :: n in Content(st) ==> Content(st)[n].payload in es
    requires forall e :: e in es ==> Stored(st, e)
    ensures IsProjectionOf(st, es)
  {
    var c := Content(st);
    forall n | n in c ensures HasSequence(es, n) {
      assert c[n].payload in es && c[n].payload.caseSeq == n;
    }
    forall n: int | HasSequence(es, n) ensures n in c {
      var e :| e in es && e.caseSeq == n;
      assert Stored(st, e);
    }
    forall n | n in st.applied ensures st.applied[n].payload in es { assert c[n] == st.applied[n]; }
    forall n | n in st.buffer ensures st.buffer[n].payload in es { assert c[n] == st.buffer[n]; }
  }

  /** Confluence, pointwise: every delivery order, with any duplicates, ends in the declared
      state and has released exactly the contiguous prefix. */
  lemma DeliveryReachesProjection(es: seq<DomainEvent>)
    requires OneLog(Delivered(es))
    ensures DeliverAll(es).conflicts == 0
    ensures IsProjectionOf(DeliverAll(es).stream, Delivered(es))
    ensures |DeliverAll(es).output| == DeliverAll(es).stream.position
  {
    NoConflicts(es);
    HeldIsProjection(DeliverAll(es).stream, Delivered(es));
    ExactlyOnceInOrder(es);
  }

  /** Confluence: two delivery sequences of the same events reach the same state and have
      released the same output. */
  lemma Confluence(a: seq<DomainEvent>, b: seq<DomainEvent>)
    requires Delivered(a) == Delivered(b) && OneLog(Delivered(a))
    ensures DeliverAll(a).stream == DeliverAll(b).stream
    ensures DeliverAll(a).output == DeliverAll(b).output
  {
    DeliveryReachesProjection(a);
    DeliveryReachesProjection(b);
    ProjectionIsUnique(DeliverAll(a).stream, DeliverAll(b).stream, Delivered(a));
    ExactlyOnceInOrder(a);
    ExactlyOnceInOrder(b);
  }
}
