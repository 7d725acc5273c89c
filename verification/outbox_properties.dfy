/** Whole-history guarantees of the outbox: gap-free immutable case logs, and deliveries that
    a superseded attempt token can no longer settle. */
module OutboxProperties {
  import opened Common
  import opened Events
  import opened Outbox

  // ---------------------------------------------------------------- invariant

  /** The positions of a case's rows are exactly 1..m. */
  ghost predicate Contiguous(rows: map<EventKey, OutboxRow>, c: CaseKey, m: int) {
    0 <= m && forall n :: Occupied(rows, c, n) <==> 1 <= n <= m
  }

  /** PRIMARY KEY (tenant, event_id) and UNIQUE (tenant, case, case_seq). */
  ghost predicate WellKeyed(rows: map<EventKey, OutboxRow>) {
    && (forall k :: k in rows ==> KeyOf(rows[k].event.draft) == k)
    && (forall j, k :: j in rows && k in rows && IsAt(rows[j], rows[k].event.Case(), rows[k].event.caseSeq) ==> j == k)
  }

  ghost predicate Good(o: State) {
    WellKeyed(o.rows) && forall c :: Contiguous(o.rows, c, LastSeq(o, c))
  }

  lemma EmptyIsGood(now: int)
    ensures Good(State(now, map[], map[], map[]))
  {
  }

  lemma ContiguousIsMax(rows: map<EventKey, OutboxRow>, c: CaseKey, m: int)
    requires Contiguous(rows, c, m)
    ensures MaxSeq(rows, c) == m
  {
    forall k | k in rows && rows[k].event.Case() == c ensures rows[k].event.caseSeq <= m {
      assert IsAt(rows[k], c, rows[k].event.caseSeq);
      assert Occupied(rows, c, rows[k].event.caseSeq);
    }
    assert IsMaxSeq(rows, c, m);
  }

  // ---------------------------------------------------------------- the case log

  ghost function EventAt(rows: map<EventKey, OutboxRow>, c: CaseKey, n: int): (e: DomainEvent)
    requires Occupied(rows, c, n)
    ensures e.Case() == c && e.caseSeq == n && exists k :: k in rows && rows[k].event == e
  {
    var k :| k in rows && IsAt(rows[k], c, n);
    rows[k].event
  }

  /** The immutable log of one case, in sequence order. */
  ghost function Log(o: State, c: CaseKey): (log: seq<DomainEvent>)
    requires Good(o)
    ensures |log| == LastSeq(o, c)
    ensures forall i :: 0 <= i < |log| ==> log[i].Case() == c && log[i].caseSeq == i + 1
  {
    assert Contiguous(o.rows, c, LastSeq(o, c));
    seq(LastSeq(o, c), i requires 0 <= i < LastSeq(o, c) => EventAt(o.rows, c, i + 1))
  }

  lemma StoredAt(o: State, k: EventKey)
    requires Good(o) && k in o.rows
    ensures var e := o.rows[k].event;
            1 <= e.caseSeq <= |Log(o, e.Case())| && Log(o, e.Case())[e.caseSeq - 1] == e
  {
    var e := o.rows[k].event;
    assert IsAt(o.rows[k], e.Case(), e.caseSeq);
    assert Occupied(o.rows, e.Case(), e.caseSeq);
    assert Contiguous(o.rows, e.Case(), LastSeq(o, e.Case()));
    var j :| j in o.rows && IsAt(o.rows[j], e.Case(), e.caseSeq)
             && o.rows[j].event == EventAt(o.rows, e.Case(), e.caseSeq);
    assert j == k;
  }

  lemma LogEntry(o: State, c: CaseKey, i: int) returns (k: EventKey)
    requires Good(o) && 0 <= i < |Log(o, c)|
    ensures k in o.rows && o.rows[k].event == Log(o, c)[i]
  {
    assert Contiguous(o.rows, c, LastSeq(o, c));
    assert Log(o, c)[i] == EventAt(o.rows, c, i + 1);
    k :| k in o.rows && o.rows[k].event == EventAt(o.rows, c, i + 1);
  }

  /** Rows are only ever added, and a stored event never changes. */
  ghost predicate Extends(o: State, o': State) {
    forall k :: k in o.rows ==> k in o'.rows && o'.rows[k].event == o.rows[k].event
  }

  lemma LogIsStable(o: State, o': State, c: CaseKey)
    requires Good(o) && Good(o') && Extends(o, o')
    ensures Log(o, c) <= Log(o', c)
  {
    var log, log' := Log(o, c), Log(o', c);
    if log != [] {
      var k := LogEntry(o, c, |log| - 1);
      StoredAt(o', k);
    }
    forall i | 0 <= i < |log| ensures i < |log'| && log'[i] == log[i] {
      var k := LogEntry(o, c, i);
      StoredAt(o', k);
    }
  }

  // ---------------------------------------------------------------- numbering

  lemma FreshPosition(o: State, e: DomainEvent)
    requires Good(o) && KeyOf(e.draft) !in o.rows && e.caseSeq == LastSeq(o, e.Case()) + 1
    ensures Good(Appended(o, e)) && Extends(o, Appended(o, e))
    ensures forall c :: LastSeq(Appended(o, e), c) == if c == e.Case() then e.caseSeq else LastSeq(o, c)
  {
    var o' := Appended(o, e);
    var key := KeyOf(e.draft);
    assert o'.rows == o.rows[key := FreshRow(o, e)];
    assert Contiguous(o.rows, e.Case(), LastSeq(o, e.Case()));
    OnlyOneJoins(o.rows, o'.rows, key, e);
    forall c ensures Contiguous(o'.rows, c, LastSeq(o', c))
                     && LastSeq(o', c) == if c == e.Case() then e.caseSeq else LastSeq(o, c)
    {
      assert Contiguous(o.rows, c, LastSeq(o, c));
      if c == e.Case() {
        assert Contiguous(o'.rows, c, e.caseSeq);
      } else {
        assert Contiguous(o'.rows, c, LastSeq(o, c));
        ContiguousIsMax(o'.rows, c, LastSeq(o, c));
      }
    }
    assert !Occupied(o.rows, e.Case(), e.caseSeq);
    JoinKeepsKeys(o.rows, key, FreshRow(o, e));
  }

  lemma JoinKeepsKeys(rows: map<EventKey, OutboxRow>, key: EventKey, row: OutboxRow)
    requires WellKeyed(rows) && key !in rows && key == KeyOf(row.event.draft)
    requires !Occupied(rows, row.event.Case(), row.event.caseSeq)
    ensures WellKeyed(rows[key := row])
  {
  }

  lemma OnlyOneJoins(rows: map<EventKey, OutboxRow>, rows': map<EventKey, OutboxRow>, key: EventKey, e: DomainEvent)
    requires key !in rows && key in rows' && rows'[key].event == e && rows' == rows[key := rows'[key]]
    ensures forall c, n :: Occupied(rows', c, n) <==> Occupied(rows, c, n) || (c == e.Case() && n == e.caseSeq)
  {
    forall c, n | Occupied(rows, c, n) ensures Occupied(rows', c, n) {
      var k :| k in rows && IsAt(rows[k], c, n);
      assert IsAt(rows'[k], c, n);
    }
    assert IsAt(rows'[key], e.Case(), e.caseSeq);
    forall c, n | Occupied(rows', c, n) ensures Occupied(rows, c, n) || (c == e.Case() && n == e.caseSeq) {
      var k :| k in rows' && IsAt(rows'[k], c, n);
      assert k == key || (k in rows && IsAt(rows[k], c, n));
    }
  }

  /** Locking a counter changes no sequence. */
  lemma LockIsNeutral(o: State, c: CaseKey)
    requires Good(o)
    ensures Good(Locked(o, c)) && Extends(o, Locked(o, c))
    ensures forall b :: LastSeq(Locked(o, c), b) == LastSeq(o, b)
  {
    forall b ensures Contiguous(Locked(o, c).rows, b, LastSeq(Locked(o, c), b)) {
      assert Contiguous(o.rows, b, LastSeq(o, b));
    }
  }

  /** Steps that touch only delivery columns, payloads or the clock keep every case log. */
  lemma SameEventsSameLogs(o: State, o': State)
    requires Good(o) && o'.counters == o.counters && o'.rows.Keys == o.rows.Keys && Extends(o, o')
    ensures Good(o') && forall c :: LastSeq(o', c) == LastSeq(o, c)
  {
    forall c, n ensures Occupied(o'.rows, c, n) <==> Occupied(o.rows, c, n) {
      if Occupied(o.rows, c, n) {
        var k :| k in o.rows && IsAt(o.rows[k], c, n);
        assert IsAt(o'.rows[k], c, n);
      }
      if Occupied(o'.rows, c, n) {
        var k :| k in o'.rows && IsAt(o'.rows[k], c, n);
        assert IsAt(o.rows[k], c, n);
      }
    }
    forall c ensures Contiguous(o'.rows, c, LastSeq(o', c)) && LastSeq(o', c) == LastSeq(o, c) {
      assert Contiguous(o.rows, c, LastSeq(o, c));
      ContiguousIsMax(o.rows, c, LastSeq(o, c));
      ContiguousIsMax(o'.rows, c, LastSeq(o, c));
    }
    forall j, k | j in o'.rows && k in o'.rows && IsAt(o'.rows[j], o'.rows[k].event.Case(), o'.rows[k].event.caseSeq)
      ensures j == k
    {
      assert IsAt(o.rows[j], o.rows[k].event.Case(), o.rows[k].event.caseSeq);
    }
  }

  /** One row's delivery columns across a step: attempts never fall, an acknowledged row is
      frozen, and a row is only handed out again under a larger attempt number. */
  ghost predicate RowAdvances(a: OutboxRow, b: OutboxRow) {
    && a.event == b.event
    && a.attempts <= b.attempts
    && (a.state.Acked? ==> a == b)
    && (b.state.Claimed? && a.attempts == b.attempts ==> a.state == b.state)
  }

  // ---------------------------------------------------------------- steps and histories

  datatype Op =
    | Append(draft: EventDraft, snapshot: Option<Snapshot>)
    | AppendExplicit(event: DomainEvent)
    | Claim(tenantId: string, owner: string, lease: int, limit: int, chosen: set<EventKey>)
    | Ack(delivery: Delivery, deliveredAt: int)
    | Retry(delivery: Delivery, delay: int)
    | Tick(elapsed: int)

  /** A claim can only return rows the select could have returned, and the clock never runs back. */
  ghost predicate Enabled(o: State, op: Op) {
    match op
    case Claim(tenantId, _, _, limit, chosen) => Claimable(o, tenantId, limit, chosen)
    case Tick(elapsed) => 0 <= elapsed
    case _ => true
  }

  ghost function Step(o: State, op: Op): State
    requires Enabled(o, op)
  {
    match op
    case Append(d, snapshot) => AppendEvent(o, d, snapshot).0
    case AppendExplicit(e) => AppendOutbox(o, e).0
    case Claim(tenantId, owner, lease, limit, chosen) => ClaimOutbox(o, tenantId, owner, lease, limit, chosen).0
    case Ack(d, at) => AckOutbox(o, d, at).0
    case Retry(d, delay) => RetryOutbox(o, d, delay).0
    case Tick(elapsed) => o.(now := o.now + elapsed)
  }

  /** `os` is a history: each state follows from the one before by the recorded operation. */
  ghost predicate History(os: seq<State>, ops: seq<Op>) {
    && |os| == |ops| + 1
    && forall i {:trigger ops[i]} :: 0 <= i < |ops| ==> Enabled(os[i], ops[i]) && os[i + 1] == Step(os[i], ops[i])
  }

  /** In a good state an append either replays, changing no sequence, or takes the next
      position of its own case; the two "position occupied" conflicts never arise. */
  lemma AppendAllocates(o: State, d: EventDraft, snapshot: Option<Snapshot>)
    requires Good(o)
    ensures var (o', r) := AppendEvent(o, d, snapshot);
            && Good(o') && Extends(o, o')
            && (r.Err? ==> o' == o)
            && (r.Ok? ==> r.value.0.draft == d)
            && (r.Ok? && r.value.1 ==> forall c :: Log(o', c) == Log(o, c))
            && (r.Ok? && !r.value.1 ==>
                  && r.value.0.caseSeq == LastSeq(o, CaseOf(d)) + 1
                  && Log(o', CaseOf(d)) == Log(o, CaseOf(d)) + [r.value.0]
                  && forall c :: c != CaseOf(d) ==> Log(o', c) == Log(o, c))
            && (r.Err? <==> if KeyOf(d) in o.rows then o.rows[KeyOf(d)].event.draft != d
                            else snapshot.Some? && SnapshotRefused(o, d, snapshot.value))
  {
    var c := CaseOf(d);
    var (o', r) := AppendEvent(o, d, snapshot);
    assert Contiguous(o.rows, c, LastSeq(o, c));
    if r.Ok? && r.value.1 {
      LockIsNeutral(o, c);
      SameLogs(o, o');
    } else if r.Ok? {
      var base := WithSnapshot(o, d, snapshot);
      SameEventsSameLogs(o, base);
      FreshPosition(base, r.value.0);
      AppendedLogs(o, o', r.value.0);
    }
  }

  lemma ExplicitAllocates(o: State, e: DomainEvent)
    requires Good(o)
    ensures var (o', r) := AppendOutbox(o, e);
            && Good(o') && Extends(o, o')
            && (r.Err? ==> o' == o)
            && (r == Ok(false) ==> forall c :: Log(o', c) == Log(o, c))
            && (r == Ok(true) ==>
                  && Log(o', e.Case()) == Log(o, e.Case()) + [e]
                  && forall c :: c != e.Case() ==> Log(o', c) == Log(o, c))
            && (r == Ok(true) <==> KeyOf(e.draft) !in o.rows && e.caseSeq == LastSeq(o, e.Case()) + 1)
  {
    var (o', r) := AppendOutbox(o, e);
    assert Contiguous(o.rows, e.Case(), LastSeq(o, e.Case()));
    if r == Ok(false) {
      LockIsNeutral(o, e.Case());
      SameLogs(o, o');
    } else if r == Ok(true) {
      FreshPosition(o, e);
      AppendedLogs(o, o', e);
    }
  }

  lemma SameLogs(o: State, o': State)
    requires Good(o) && Good(o') && Extends(o, o') && forall c :: LastSeq(o', c) == LastSeq(o, c)
    ensures forall c :: Log(o', c) == Log(o, c)
  {
    forall c ensures Log(o', c) == Log(o, c) {
      LogIsStable(o, o', c);
    }
  }

  lemma AppendedLogs(o: State, o': State, e: DomainEvent)
    requires Good(o) && Good(o') && Extends(o, o') && KeyOf(e.draft) in o'.rows && o'.rows[KeyOf(e.draft)].event == e
    requires forall c :: LastSeq(o', c) == if c == e.Case() then e.caseSeq else LastSeq(o, c)
    requires e.caseSeq == LastSeq(o, e.Case()) + 1
    ensures Log(o', e.Case()) == Log(o, e.Case()) + [e]
    ensures forall c :: c != e.Case() ==> Log(o', c) == Log(o, c)
  {
    forall c ensures Log(o, c) <= Log(o', c) {
      LogIsStable(o, o', c);
    }
    StoredAt(o', KeyOf(e.draft));
    var log' := Log(o', e.Case());
    assert log' == log'[..|log'| - 1] + [log'[|log'| - 1]];
  }

  /** Every step keeps the numbering and never rewrites a stored event. */
  lemma StepKeepsLogs(o: State, op: Op)
    requires Good(o) && Enabled(o, op)
    ensures Good(Step(o, op)) && Extends(o, Step(o, op))
  {
    match op
    case Append(d, snapshot) => AppendAllocates(o, d, snapshot);
    case AppendExplicit(e) => ExplicitAllocates(o, e);
    case _ =>
      DeliveryKeepsEvents(o, op);
      SameEventsSameLogs(o, Step(o, op));
  }

  lemma DeliveryKeepsEvents(o: State, op: Op)
    requires Enabled(o, op) && !op.Append? && !op.AppendExplicit?
    ensures var o' := Step(o, op);
            o'.counters == o.counters && o'.rows.Keys == o.rows.Keys && Extends(o, o')
            && forall k :: k in o.rows ==> RowAdvances(o.rows[k], o'.rows[k])
  {
  }

  lemma AppendKeepsRows(o: State, op: Op)
    requires op.Append? || op.AppendExplicit?
    ensures forall k :: k in o.rows ==> k in Step(o, op).rows && Step(o, op).rows[k] == o.rows[k]
  {
  }

  /** Gap-free numbering over any history: every case's positions stay exactly 1..last, and
      its log only ever grows at the end. */
  lemma {:induction false} LogsOnlyGrow(os: seq<State>, ops: seq<Op>, c: CaseKey)
    requires History(os, ops) && Good(os[0])
    ensures Good(os[|ops|]) && Extends(os[0], os[|ops|])
    ensures Contiguous(os[|ops|].rows, c, LastSeq(os[|ops|], c))
    ensures Log(os[0], c) <= Log(os[|ops|], c)
  {
    var n := |ops|;
    if n != 0 {
      LogsOnlyGrow(os[..n], ops[..n - 1], c);
      StepKeepsLogs(os[n - 1], ops[n - 1]);
    }
    LogIsStable(os[0], os[n], c);
  }

  // ---------------------------------------------------------------- fenced delivery

  lemma StepAdvancesRows(o: State, op: Op, k: EventKey)
    requires Good(o) && Enabled(o, op) && k in o.rows
    ensures k in Step(o, op).rows && RowAdvances(o.rows[k], Step(o, op).rows[k])
  {
    if op.Append? || op.AppendExplicit? {
      AppendKeepsRows(o, op);
    } else {
      DeliveryKeepsEvents(o, op);
    }
  }

  lemma {:induction false} RowsAdvance(os: seq<State>, ops: seq<Op>, k: EventKey)
    requires History(os, ops) && Good(os[0]) && k in os[0].rows
    ensures k in os[|ops|].rows
    ensures os[0].rows[k].attempts <= os[|ops|].rows[k].attempts
    ensures os[0].rows[k].state.Acked? ==> os[|ops|].rows[k] == os[0].rows[k]
    ensures Good(os[|ops|])
  {
    var n := |ops|;
    if n != 0 {
      RowsAdvance(os[..n], ops[..n - 1], k);
      StepAdvancesRows(os[n - 1], ops[n - 1], k);
      StepKeepsLogs(os[n - 1], ops[n - 1]);
    }
  }

  /** ACKED is absorbing, and no later acknowledgement of that event ever reports success. */
  lemma AcknowledgedForever(os: seq<State>, ops: seq<Op>, d: Delivery)
    requires History(os, ops) && Good(os[0])
    requires KeyOf(d.event.draft) in os[0].rows && os[0].rows[KeyOf(d.event.draft)].state.Acked?
    ensures var k := KeyOf(d.event.draft);
            k in os[|ops|].rows && os[|ops|].rows[k] == os[0].rows[k]
    ensures forall at :: AckOutbox(os[|ops|], d, at) == (os[|ops|], Ok(false))
    ensures forall delay :: RetryOutbox(os[|ops|], d, delay).1.Err?
  {
    RowsAdvance(os, ops, KeyOf(d.event.draft));
  }

  /** At most one acknowledgement of an event ever returns True. */
  lemma AckedAtMostOnce(os: seq<State>, ops: seq<Op>, i: int, j: int)
    requires History(os, ops) && Good(os[0]) && 0 <= i < j < |ops|
    requires ops[i].Ack? && AckOutbox(os[i], ops[i].delivery, ops[i].deliveredAt).1 == Ok(true)
    requires ops[j].Ack? && KeyOf(ops[j].delivery.event.draft) == KeyOf(ops[i].delivery.event.draft)
    ensures AckOutbox(os[j], ops[j].delivery, ops[j].deliveredAt).1 == Ok(false)
  {
    HistorySegment(os, ops, 0, i + 1);
    LogsOnlyGrow(os[..i + 2], ops[..i + 1], os[i].rows[KeyOf(ops[i].delivery.event.draft)].event.Case());
    HistorySegment(os, ops, i + 1, j);
    AcknowledgedForever(os[i + 1..j + 1], ops[i + 1..j], ops[j].delivery);
  }

  lemma HistorySegment(os: seq<State>, ops: seq<Op>, a: int, b: int)
    requires History(os, ops) && 0 <= a <= b <= |ops|
    ensures History(os[a..b + 1], ops[a..b])
    ensures os[a..b + 1][0] == os[a] && os[a..b + 1][b - a] == os[b]
  {
  }

  /** Once the row carries a newer attempt number, the old delivery can neither acknowledge
      nor reschedule it, now or at any later time. */
  lemma SupersededForever(os: seq<State>, ops: seq<Op>, d: Delivery)
    requires History(os, ops) && Good(os[0])
    requires KeyOf(d.event.draft) in os[0].rows && d.attempts < os[0].rows[KeyOf(d.event.draft)].attempts
    ensures !HoldsLease(os[|ops|], d)
    ensures forall at :: AckOutbox(os[|ops|], d, at).0 == os[|ops|] && AckOutbox(os[|ops|], d, at).1 != Ok(true)
    ensures forall delay :: RetryOutbox(os[|ops|], d, delay).0 == os[|ops|] && RetryOutbox(os[|ops|], d, delay).1.Err?
  {
    RowsAdvance(os, ops, KeyOf(d.event.draft));
  }

  /** A lease that a delivery has lost is never regained: time only advances, and the row is
      handed out again only under a larger attempt number. */
  lemma {:induction false} LostLeaseStaysLost(os: seq<State>, ops: seq<Op>, d: Delivery)
    requires History(os, ops) && Good(os[0])
    requires var k := KeyOf(d.event.draft);
             k in os[0].rows && d.attempts <= os[0].rows[k].attempts && !HoldsLease(os[0], d)
    ensures KeyOf(d.event.draft) in os[|ops|].rows
    ensures d.attempts <= os[|ops|].rows[KeyOf(d.event.draft)].attempts
    ensures !HoldsLease(os[|ops|], d)
    ensures Good(os[|ops|])
  {
    var n, k := |ops|, KeyOf(d.event.draft);
    if n != 0 {
      LostLeaseStaysLost(os[..n], ops[..n - 1], d);
      StepAdvancesRows(os[n - 1], ops[n - 1], k);
      StepKeepsLogs(os[n - 1], ops[n - 1]);
    }
  }

  /** What a claim hands out. */
  ghost function Answer(o: State, op: Op): Result<map<EventKey, Delivery>>
    requires Enabled(o, op) && op.Claim?
  {
    ClaimOutbox(o, op.tenantId, op.owner, op.lease, op.limit, op.chosen).1
  }

  /** Two claims of the same event, at different steps of one history, carry different tokens. */
  lemma TokensAreUnique(os: seq<State>, ops: seq<Op>, i: int, j: int, k: EventKey)
    requires History(os, ops) && Good(os[0]) && 0 <= i < j < |ops|
    requires ops[i].Claim? && k in ops[i].chosen && Answer(os[i], ops[i]).Ok?
    requires ops[j].Claim? && k in ops[j].chosen && Answer(os[j], ops[j]).Ok?
    ensures Answer(os[i], ops[i]).value[k].attempts < Answer(os[j], ops[j]).value[k].attempts
  {
    HistorySegment(os, ops, 0, i + 1);
    LogsOnlyGrow(os[..i + 2], ops[..i + 1], os[i].rows[k].event.Case());
    HistorySegment(os, ops, i + 1, j);
    RowsAdvance(os[i + 1..j + 1], ops[i + 1..j], k);
  }

  /** No event is lost: whatever its delivery state, an unacknowledged row becomes due again
      once the clock passes its lease and its next attempt time. */
  lemma UnackedBecomesDue(o: State, k: EventKey, wait: int)
    requires k in o.rows && !o.rows[k].state.Acked? && 0 <= wait
    requires o.rows[k].nextAttemptAt <= o.now + wait
    requires o.rows[k].state.Claimed? ==> o.rows[k].state.leaseUntil <= o.now + wait
    ensures Due(Step(o, Tick(wait)).rows[k], Step(o, Tick(wait)).now)
    ensures Claimable(Step(o, Tick(wait)), k.tenantId, 1, {k})
  {
  }
}
