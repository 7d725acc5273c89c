/** Transactional outbox: gap-free case sequences and leased, fenced deliveries. */
module Outbox {
  import opened Common
  import opened Events

  datatype EventKey = EventKey(tenantId: string, eventId: string)

  datatype DeliveryState = Pending | Claimed(owner: string, leaseUntil: int) | Acked(deliveredAt: int)

  datatype OutboxRow = OutboxRow(event: DomainEvent, state: DeliveryState, attempts: int, nextAttemptAt: int)

  datatype Snapshot = Snapshot(sha256: string, payload: string)

  datatype SnapshotKey = SnapshotKey(caseKey: CaseKey, referenceId: string)

  /** The outbox tables and the database clock. */
  datatype State = State(
    now: int,
    counters: map<CaseKey, int>,
    rows: map<EventKey, OutboxRow>,
    payloads: map<SnapshotKey, Snapshot>)

  /** What a publisher holds while its lease lasts. Two deliveries of a row differ in `attempts`. */
  datatype Delivery = Delivery(event: DomainEvent, attempts: int, owner: string, leaseUntil: int)

  const MAX_OUTBOX_BATCH := 500

  function KeyOf(d: EventDraft): EventKey { EventKey(d.tenantId, d.eventId) }

  function CaseOf(d: EventDraft): CaseKey { CaseKey(d.tenantId, d.caseId) }

  // ---------------------------------------------------------------- numbering

  predicate IsAt(row: OutboxRow, c: CaseKey, n: int) {
    row.event.Case() == c && row.event.caseSeq == n
  }

  /** UNIQUE (tenant, case, case_seq) would refuse a row at this position. */
  ghost predicate Occupied(rows: map<EventKey, OutboxRow>, c: CaseKey, n: int) {
    exists k :: k in rows && IsAt(rows[k], c, n)
  }

  /** `COALESCE(MAX(case_seq), 0)` over the rows of one case. */
  ghost predicate IsMaxSeq(rows: map<EventKey, OutboxRow>, c: CaseKey, n: int) {
    && (forall k :: k in rows && rows[k].event.Case() == c ==> rows[k].event.caseSeq <= n)
    && (n == 0 || Occupied(rows, c, n))
  }

  lemma {:induction false} FindMaxSeq(rows: map<EventKey, OutboxRow>, keys: set<EventKey>, c: CaseKey) returns (n: int)
    requires keys <= rows.Keys
    ensures 0 <= n && (n == 0 || Occupied(rows, c, n))
    ensures forall k :: k in keys && rows[k].event.Case() == c ==> rows[k].event.caseSeq <= n
  {
    n := 0;
    if k :| k in keys {
      n := FindMaxSeq(rows, keys - {k}, c);
      if rows[k].event.Case() == c && n < rows[k].event.caseSeq {
        n := rows[k].event.caseSeq;
        assert IsAt(rows[k], c, n);
      }
    }
  }

  lemma MaxSeqExists(rows: map<EventKey, OutboxRow>, c: CaseKey)
    ensures exists n :: 0 <= n && IsMaxSeq(rows, c, n)
  {
    var n := FindMaxSeq(rows, rows.Keys, c);
    assert IsMaxSeq(rows, c, n);
  }

  ghost function MaxSeq(rows: map<EventKey, OutboxRow>, c: CaseKey): (n: int)
    ensures 0 <= n && IsMaxSeq(rows, c, n)
  {
    MaxSeqExists(rows, c);
    var n :| 0 <= n && IsMaxSeq(rows, c, n);
    n
  }

  /** The locked high-water mark of a case; a missing counter is seeded from the rows. */
  ghost function LastSeq(o: State, c: CaseKey): int {
    if c in o.counters then o.counters[c] else MaxSeq(o.rows, c)
  }

  function FreshRow(o: State, e: DomainEvent): OutboxRow {
    OutboxRow(e, Pending, 0, o.now)
  }

  ghost function Appended(o: State, e: DomainEvent): State {
    o.(rows := o.rows[KeyOf(e.draft) := FreshRow(o, e)], counters := o.counters[e.Case() := e.caseSeq])
  }

  ghost function Locked(o: State, c: CaseKey): State {
    o.(counters := o.counters[c := LastSeq(o, c)])
  }

  ghost predicate SnapshotRefused(o: State, d: EventDraft, snapshot: Snapshot) {
    || snapshot.sha256 != d.payloadSha256
    || (var at := SnapshotKey(CaseOf(d), d.payloadRef);
        at in o.payloads && o.payloads[at] != Snapshot(d.payloadSha256, snapshot.payload))
  }

  ghost function WithSnapshot(o: State, d: EventDraft, snapshot: Option<Snapshot>): State {
    if snapshot.None? then o
    else o.(payloads := o.payloads[SnapshotKey(CaseOf(d), d.payloadRef) := snapshot.value])
  }

  /** The state and answer of `append`; true means that nothing was stored, because the event
      already was. The digest of the snapshot is part of it. */
  ghost function AppendEvent(o: State, d: EventDraft, snapshot: Option<Snapshot>)
    : (State, Result<(DomainEvent, bool)>)
  {
    var c, k := CaseOf(d), KeyOf(d);
    var current := LastSeq(o, c);
    if k in o.rows then
      var stored := o.rows[k].event;
      if stored != DomainEvent(d, stored.caseSeq) then (o, Err(Conflict))
      else (Locked(o, c), Ok((stored, true)))
    else if snapshot.Some? && SnapshotRefused(o, d, snapshot.value) then (o, Err(Conflict))
    else if current < 0 || Occupied(o.rows, c, current + 1) then (o, Err(Conflict))
    else
      var e := DomainEvent(d, current + 1);
      (Appended(WithSnapshot(o, d, snapshot), e), Ok((e, false)))
  }

  /** Append an event that already names its position. */
  ghost function AppendOutbox(o: State, e: DomainEvent): (State, Result<bool>) {
    var c, k := e.Case(), KeyOf(e.draft);
    if k in o.rows then
      if o.rows[k].event == e then (Locked(o, c), Ok(false)) else (o, Err(Conflict))
    else if e.caseSeq != LastSeq(o, c) + 1 then (o, Err(Conflict))
    else if Occupied(o.rows, c, e.caseSeq) then (o, Err(Conflict))
    else (Appended(o, e), Ok(true))
  }

  // ---------------------------------------------------------------- delivery

  predicate Due(row: OutboxRow, now: int) {
    match row.state
    case Pending => row.nextAttemptAt <= now
    case Claimed(_, leaseUntil) => leaseUntil <= now
    case Acked(_) => false
  }

  /** What the ordered `SKIP LOCKED ... LIMIT` select may return: due rows of the tenant. */
  ghost predicate Claimable(o: State, tenantId: string, limit: int, chosen: set<EventKey>) {
    && (1 <= limit <= MAX_OUTBOX_BATCH ==> |chosen| <= limit)
    && forall k :: k in chosen ==> k in o.rows && k.tenantId == tenantId && Due(o.rows[k], o.now)
  }

  function Leased(row: OutboxRow, owner: string, until: int): OutboxRow {
    row.(state := Claimed(owner, until), attempts := row.attempts + 1)
  }

  function DeliveryOf(row: OutboxRow, owner: string, until: int): Delivery {
    Delivery(row.event, row.attempts + 1, owner, until)
  }

  ghost function ClaimOutbox(o: State, tenantId: string, owner: string, lease: int, limit: int, chosen: set<EventKey>)
    : (State, Result<map<EventKey, Delivery>>)
    requires Claimable(o, tenantId, limit, chosen)
  {
    if owner == "" || !(1 <= limit <= MAX_OUTBOX_BATCH) || lease <= 0 then (o, Err(InvalidInput))
    else
      (o.(rows := LeaseAll(o.rows, chosen, owner, o.now + lease)),
       Ok(Deliveries(o.rows, chosen, owner, o.now + lease)))
  }

  ghost function Deliveries(rows: map<EventKey, OutboxRow>, chosen: set<EventKey>, owner: string, until: int)
    : map<EventKey, Delivery>
    requires chosen <= rows.Keys
  {
    map k | k in chosen :: DeliveryOf(rows[k], owner, until)
  }

  ghost function LeaseAll(rows: map<EventKey, OutboxRow>, chosen: set<EventKey>, owner: string, until: int)
    : map<EventKey, OutboxRow>
  {
    map k | k in rows :: if k in chosen then Leased(rows[k], owner, until) else rows[k]
  }

  lemma LeaseOneMore(rows: map<EventKey, OutboxRow>, chosen: set<EventKey>, k: EventKey, owner: string, until: int)
    requires k in rows && k !in chosen
    ensures LeaseAll(rows, chosen, owner, until)[k := Leased(rows[k], owner, until)]
            == LeaseAll(rows, chosen + {k}, owner, until)
  {
  }

  lemma DeliverOneMore(rows: map<EventKey, OutboxRow>, chosen: set<EventKey>, k: EventKey, owner: string, until: int)
    requires chosen <= rows.Keys && k in rows
    ensures Deliveries(rows, chosen, owner, until)[k := DeliveryOf(rows[k], owner, until)]
            == Deliveries(rows, chosen + {k}, owner, until)
  {
  }

  lemma LeaseNone(rows: map<EventKey, OutboxRow>, owner: string, until: int)
    ensures LeaseAll(rows, {}, owner, until) == rows
  {
  }

  /** The delivery still holds the lease it was handed. */
  predicate HoldsLease(o: State, d: Delivery) {
    var k := KeyOf(d.event.draft);
    && k in o.rows
    && o.rows[k].state.Claimed? && o.rows[k].state.owner == d.owner
    && o.rows[k].attempts == d.attempts && o.now < o.rows[k].state.leaseUntil
  }

  function AckOutbox(o: State, d: Delivery, deliveredAt: int): (State, Result<bool>) {
    var k := KeyOf(d.event.draft);
    if HoldsLease(o, d) then (o.(rows := o.rows[k := o.rows[k].(state := Acked(deliveredAt))]), Ok(true))
    else if k in o.rows && o.rows[k].state.Acked? then (o, Ok(false))
    else (o, Err(LeaseLost))
  }

  function RetryOutbox(o: State, d: Delivery, delay: int): (State, Result<bool>) {
    var k := KeyOf(d.event.draft);
    if delay < 0 then (o, Err(InvalidInput))
    else if HoldsLease(o, d) then
      (o.(rows := o.rows[k := o.rows[k].(state := Pending, nextAttemptAt := o.now + delay)]), Ok(true))
    else if k in o.rows && o.rows[k].state.Acked? then (o, Err(Conflict))
    else (o, Err(LeaseLost))
  }

  // ---------------------------------------------------------------- the repository

  /** The UPDATE of a claim, row by row. */
  method LeaseRows(rows: map<EventKey, OutboxRow>, chosen: set<EventKey>, owner: string, until: int)
    returns (leased: map<EventKey, OutboxRow>, deliveries: map<EventKey, Delivery>)
    requires chosen <= rows.Keys
    ensures leased == LeaseAll(rows, chosen, owner, until)
    ensures deliveries == Deliveries(rows, chosen, owner, until)
  {
    var todo, done := chosen, {};
    leased, deliveries := rows, map[];
    LeaseNone(rows, owner, until);
    while todo != {}
      invariant todo !! done && todo + done == chosen
      invariant leased == LeaseAll(rows, done, owner, until)
      invariant deliveries == Deliveries(rows, done, owner, until)
    {
      var k :| k in todo;
      LeaseOneMore(rows, done, k, owner, until);
      DeliverOneMore(rows, done, k, owner, until);
      deliveries := deliveries[k := DeliveryOf(leased[k], owner, until)];
      leased := leased[k := Leased(leased[k], owner, until)];
      todo, done := todo - {k}, done + {k};
    }
    assert done == chosen;
  }

  /** The aggregate behind the counter seed, row by row. */
  method HighestSeq(rows: map<EventKey, OutboxRow>, c: CaseKey) returns (highest: int)
    ensures highest == MaxSeq(rows, c)
  {
    highest := 0;
    var pending := rows.Keys;
    while pending != {}
      invariant pending <= rows.Keys && 0 <= highest
      invariant forall k :: k in rows && k !in pending && rows[k].event.Case() == c ==> rows[k].event.caseSeq <= highest
      invariant highest == 0 || Occupied(rows, c, highest)
    {
      var k :| k in pending;
      if rows[k].event.Case() == c && highest < rows[k].event.caseSeq {
        highest := rows[k].event.caseSeq;
        assert IsAt(rows[k], c, highest);
      }
      pending := pending - {k};
    }
    MaxSeqIsUnique(rows, c, highest, MaxSeq(rows, c));
  }

  class EventRepository {
    var now: int
    var counters: map<CaseKey, int>
    var rows: map<EventKey, OutboxRow>
    var payloads: map<SnapshotKey, Snapshot>

    constructor (now: int)
      ensures Tables() == State(now, map[], map[], map[])
    {
      this.now := now;
      counters, rows, payloads := map[], map[], map[];
    }

    function Tables(): State
      reads this
    {
      State(now, counters, rows, payloads)
    }

    /** Lock and return the case's high-water mark, creating its counter row when missing. */
    method LockCaseSequence(c: CaseKey) returns (current: int)
      modifies this`counters
      ensures current == LastSeq(old(Tables()), c)
      ensures Tables() == Locked(old(Tables()), c)
    {
      if c !in counters {
        var highest := HighestSeq(rows, c);
        counters := counters[c := highest];
      }
      current := counters[c];
      assert counters[c := current] == counters;
    }

    method FindOccupant(c: CaseKey, n: int) returns (occupied: bool)
      ensures occupied == Occupied(rows, c, n)
    {
      occupied := exists k :: k in rows && IsAt(rows[k], c, n);
    }

    method Append(d: EventDraft, snapshot: Option<Snapshot>) returns (r: Result<(DomainEvent, bool)>)
      modifies this
      ensures (Tables(), r) == AppendEvent(old(Tables()), d, snapshot)
    {
      var saved := counters;
      var c, k := CaseOf(d), KeyOf(d);
      var current := LockCaseSequence(c);
      if k in rows {
        var stored := rows[k].event;
        if stored != DomainEvent(d, stored.caseSeq) {
          counters := saved;
          return Err(Conflict);
        }
        return Ok((stored, true));
      }
      if snapshot.Some? {
        var at := SnapshotKey(c, d.payloadRef);
        var known := at in payloads;
        if snapshot.value.sha256 != d.payloadSha256
           || (known && payloads[at] != Snapshot(d.payloadSha256, snapshot.value.payload)) {
          counters := saved;
          return Err(Conflict);
        }
      }
      var occupied := FindOccupant(c, current + 1);
      if current < 0 || occupied {
        counters := saved;
        return Err(Conflict);
      }
      counters := saved;
      Insert(DomainEvent(d, current + 1), snapshot);
      return Ok((DomainEvent(d, current + 1), false));
    }

    method Insert(event: DomainEvent, snapshot: Option<Snapshot>)
      modifies this
      ensures Tables() == Appended(WithSnapshot(old(Tables()), event.draft, snapshot), event)
    {
      if snapshot.Some? {
        payloads := payloads[SnapshotKey(event.Case(), event.draft.payloadRef) := snapshot.value];
      }
      rows := rows[KeyOf(event.draft) := OutboxRow(event, Pending, 0, now)];
      counters := counters[event.Case() := event.caseSeq];
    }

    method AppendExplicit(event: DomainEvent) returns (r: Result<bool>)
      modifies this
      ensures (Tables(), r) == AppendOutbox(old(Tables()), event)
    {
      var saved := counters;
      var c, k := event.Case(), KeyOf(event.draft);
      var current := LockCaseSequence(c);
      if k in rows {
        if rows[k].event == event {
          return Ok(false);
        }
        counters := saved;
        return Err(Conflict);
      }
      var occupied := FindOccupant(c, event.caseSeq);
      if event.caseSeq != current + 1 || occupied {
        counters := saved;
        return Err(Conflict);
      }
      rows := rows[k := OutboxRow(event, Pending, 0, now)];
      counters := counters[c := event.caseSeq];
      assert counters == saved[c := event.caseSeq];
      return Ok(true);
    }

    /** Lease the selected rows one by one; `chosen` is what the select returned. */
    method Claim(tenantId: string, owner: string, lease: int, limit: int, chosen: set<EventKey>)
      returns (r: Result<map<EventKey, Delivery>>)
      requires Claimable(Tables(), tenantId, limit, chosen)
      modifies this`rows
      ensures (Tables(), r) == ClaimOutbox(old(Tables()), tenantId, owner, lease, limit, chosen)
    {
      if owner == "" || !(1 <= limit <= MAX_OUTBOX_BATCH) || lease <= 0 {
        return Err(InvalidInput);
      }
      var deliveries;
      rows, deliveries := LeaseRows(rows, chosen, owner, now + lease);
      return Ok(deliveries);
    }

    method Acknowledge(d: Delivery, deliveredAt: int) returns (r: Result<bool>)
      modifies this`rows
      ensures (Tables(), r) == AckOutbox(old(Tables()), d, deliveredAt)
    {
      var k := KeyOf(d.event.draft);
      if HoldsLease(Tables(), d) {
        rows := rows[k := rows[k].(state := Acked(deliveredAt))];
        return Ok(true);
      }
      if k in rows && rows[k].state.Acked? {
        return Ok(false);
      }
      return Err(LeaseLost);
    }

    method Reschedule(d: Delivery, delay: int) returns (r: Result<bool>)
      modifies this`rows
      ensures (Tables(), r) == RetryOutbox(old(Tables()), d, delay)
    {
      if delay < 0 {
        return Err(InvalidInput);
      }
      var k := KeyOf(d.event.draft);
      if HoldsLease(Tables(), d) {
        rows := rows[k := rows[k].(state := Pending, nextAttemptAt := now + delay)];
        return Ok(true);
      }
      if k in rows && rows[k].state.Acked? {
        return Err(Conflict);
      }
      return Err(LeaseLost);
    }
  }

  lemma MaxSeqIsUnique(rows: map<EventKey, OutboxRow>, c: CaseKey, m: int, n: int)
    requires 0 <= m && IsMaxSeq(rows, c, m) && 0 <= n && IsMaxSeq(rows, c, n)
    ensures m == n
  {
  }
}
