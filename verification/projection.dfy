/** A consumer's view of a case log: what it has applied, what it holds back, and one delivery.
    There is one for each `(tenant, case, consumer)`. */
module Projection {
  import opened Common
  import opened Events

  /** A stored row; its key in a `Table` is the `case_seq` column, kept apart from the payload. */
  datatype Row = Row(eventId: string, payload: DomainEvent)

  type Table = map<int, Row>

  datatype Stream = Stream(position: nat, applied: Table, buffer: Table)

  const EMPTY_STREAM := Stream(0, map[], map[])

  datatype IngestResult = IngestResult(decision: Decision, applied: seq<DomainEvent>, position: nat)

  datatype Drained = Drained(stream: Stream, applied: seq<DomainEvent>)

  function RowOf(e: DomainEvent): Row { Row(e.Id(), e) }

  /** PRIMARY KEY (stream, event_id) of the applied and the buffer table. */
  ghost predicate UniqueIds(t: Table) {
    forall i, j :: i in t && j in t && t[i].eventId == t[j].eventId ==> i == j
  }

  ghost predicate Keyed(st: Stream) {
    UniqueIds(st.applied) && UniqueIds(st.buffer)
  }

  ghost predicate HasId(t: Table, id: string) {
    exists k :: k in t && t[k].eventId == id
  }

  ghost function FindById(t: Table, id: string): Option<int> {
    if HasId(t, id) then
      var k :| k in t && t[k].eventId == id;
      Some(k)
    else None
  }

  // ---------------------------------------------------------------- step semantics

  /** Leaves the buffer without a row at the next position, or fails on a row that contradicts
      the ledger. */
  ghost function Drain(st: Stream): (r: Result<Drained>)
    decreases |st.buffer|
  {
    var next := st.position + 1;
    if next !in st.buffer then Ok(Drained(st, []))
    else
      var e := st.buffer[next].payload;
      if e.caseSeq != next then Err(Conflict)
      else if next in st.applied || HasId(st.applied, e.Id()) then Err(Database)
      else
        assert |st.buffer - {next}| < |st.buffer| by { DropShrinks(st.buffer, next); }
        match Drain(Stream(next, st.applied[next := RowOf(e)], st.buffer - {next}))
        case Err(c) => Err(c)
        case Ok(d) => Ok(Drained(d.stream, [e] + d.applied))
  }

  lemma DropShrinks(t: Table, k: int)
    requires k in t
    ensures |t - {k}| == |t| - 1
  {
  }

  ghost function Settle(st: Stream, drained: Result<Drained>, id: string): (Stream, Result<IngestResult>) {
    match drained
    case Err(c) => (st, Err(c))
    case Ok(d) =>
      var decision := if exists x :: x in d.applied && x.Id() == id then Replay else BufferGap;
      (d.stream, Ok(IngestResult(decision, d.applied, d.stream.position)))
  }

  /** One ingest as a transition of the stream; an error leaves the stream as it was. */
  ghost function Ingest(st: Stream, e: DomainEvent): (Stream, Result<IngestResult>) {
    var n := e.caseSeq;
    match FindById(st.applied, e.Id())
    case Some(k) =>
      if k != n || st.applied[k].payload != e || st.position < n then (st, Err(Conflict))
      else (st, Ok(IngestResult(Replay, [], st.position)))
    case None =>
      match FindById(st.buffer, e.Id())
      case Some(k) =>
        if k != n || st.buffer[k].payload != e then (st, Err(Conflict))
        else Settle(st, Drain(st), e.Id())
      case None =>
        if n in st.applied || n in st.buffer then (st, Err(Conflict))
        else
          match ProjectionDecision(st.position, e, None)
          case Err(c) => (st, Err(c))
          case Ok(BufferGap) =>
            (st.(buffer := st.buffer[n := RowOf(e)]), Ok(IngestResult(BufferGap, [], st.position)))
          case Ok(_) =>
            match Drain(Stream(n, st.applied[n := RowOf(e)], st.buffer))
            case Err(c) => (st, Err(c))
            case Ok(d) => (d.stream, Ok(IngestResult(Apply, [e] + d.applied, d.stream.position)))
  }

  // ---------------------------------------------------------------- the repository

  datatype StreamKey = StreamKey(caseKey: CaseKey, consumerId: string)

  method LookupById(t: Table, id: string) returns (r: Option<int>)
    requires UniqueIds(t)
    ensures r == FindById(t, id)
  {
    if k :| k in t && t[k].eventId == id {
      r := Some(k);
    } else {
      r := None;
    }
  }

  /** The drain loop: one buffered row at a time leaves the buffer for the applied ledger. */
  method DrainRows(st: Stream) returns (r: Result<Drained>)
    requires Keyed(st)
    ensures r == Drain(st)
    ensures r.Ok? ==> Keyed(r.value.stream)
  {
    var current := st;
    var drained: seq<DomainEvent> := [];
    PrependNothing(Drain(st));
    while current.position + 1 in current.buffer
      invariant Keyed(current)
      invariant Drain(st) == Prepended(drained, Drain(current))
      decreases |current.buffer|
    {
      var next := current.position + 1;
      var event := current.buffer[next].payload;
      if event.caseSeq != next {
        return Err(Conflict);
      }
      var duplicate := LookupById(current.applied, event.Id());
      if next in current.applied || duplicate.Some? {
        return Err(Database);
      }
      DropShrinks(current.buffer, next);
      DrainUnfold(drained, current);
      current := Stream(next, current.applied[next := RowOf(event)], current.buffer - {next});
      drained := drained + [event];
    }
    assert drained + [] == drained;
    r := Ok(Drained(current, drained));
  }

  ghost function Prepended(head: seq<DomainEvent>, r: Result<Drained>): Result<Drained> {
    match r
    case Err(c) => Err(c)
    case Ok(d) => Ok(Drained(d.stream, head + d.applied))
  }

  lemma PrependNothing(r: Result<Drained>)
    ensures Prepended([], r) == r
  {
    if r.Ok? {
      assert [] + r.value.applied == r.value.applied;
    }
  }

  lemma DrainUnfold(head: seq<DomainEvent>, st: Stream)
    requires st.position + 1 in st.buffer
    requires var next := st.position + 1; var e := st.buffer[next].payload;
             e.caseSeq == next && next !in st.applied && !HasId(st.applied, e.Id())
    ensures var next := st.position + 1; var e := st.buffer[next].payload;
            Prepended(head, Drain(st)) ==
            Prepended(head + [e], Drain(Stream(next, st.applied[next := RowOf(e)], st.buffer - {next})))
  {
    var next := st.position + 1;
    var e := st.buffer[next].payload;
    var rest := Drain(Stream(next, st.applied[next := RowOf(e)], st.buffer - {next}));
    if rest.Ok? {
      assert head + ([e] + rest.value.applied) == head + [e] + rest.value.applied;
    }
  }

  /** The three projection tables, their rows grouped by the stream that owns them. */
  class ProjectionRepository {
    var streams: map<StreamKey, Stream>

    constructor ()
      ensures Valid() && streams == map[]
    {
      streams := map[];
    }

    function StreamOf(k: StreamKey): Stream
      reads this
    {
      if k in streams then streams[k] else EMPTY_STREAM
    }

    ghost predicate Valid()
      reads this
    {
      forall k :: k in streams ==> Keyed(streams[k])
    }

    /** One call on one stream; the other streams, and on an error this one too, stay as they were. */
    method IngestEvent(event: DomainEvent, consumerId: string) returns (r: Result<IngestResult>)
      requires Valid()
      modifies this
      ensures Valid()
      ensures var k := StreamKey(event.Case(), consumerId);
              if consumerId == "" then streams == old(streams) && r == Err(InvalidInput)
              else
                && (StreamOf(k), r) == Ingest(old(StreamOf(k)), event)
                && streams == old(streams)[k := StreamOf(k)]
    {
      if consumerId == "" {
        return Err(InvalidInput);
      }
      var k := StreamKey(event.Case(), consumerId);
      var st := StreamOf(k);
      var next;
      next, r := IngestRows(st, event);
      streams := streams[k := next];
    }
  }

  /** The body of one ingest transaction over the rows of its stream. */
  method IngestRows(st: Stream, event: DomainEvent) returns (next: Stream, r: Result<IngestResult>)
    requires Keyed(st)
    ensures (next, r) == Ingest(st, event)
    ensures Keyed(next)
  {
    next := st;
    var n := event.caseSeq;
    var byId := LookupById(st.applied, event.Id());
    if byId.Some? {
      if byId.value != n || st.applied[byId.value].payload != event || st.position < n {
        return st, Err(Conflict);
      }
      return st, Ok(IngestResult(Replay, [], st.position));
    }
    var held := LookupById(st.buffer, event.Id());
    if held.Some? {
      if held.value != n || st.buffer[held.value].payload != event {
        return st, Err(Conflict);
      }
      var drained := DrainRows(st);
      if drained.Err? {
        return st, Err(drained.code);
      }
      var released := exists x :: x in drained.value.applied && x.Id() == event.Id();
      var outcome := if released then Replay else BufferGap;
      next := drained.value.stream;
      return next, Ok(IngestResult(outcome, drained.value.applied, next.position));
    }
    // No row carries this id, so a row at this sequence belongs to another event.
    if n in st.applied || n in st.buffer {
      return st, Err(Conflict);
    }
    var decision := ProjectionDecision(st.position, event, None);
    if decision.Err? {
      return st, Err(decision.code);
    }
    if decision.value == BufferGap {
      next := st.(buffer := st.buffer[n := RowOf(event)]);
      return next, Ok(IngestResult(BufferGap, [], st.position));
    }
    var advanced := Stream(n, st.applied[n := RowOf(event)], st.buffer);
    var drained := DrainRows(advanced);
    if drained.Err? {
      return st, Err(drained.code);
    }
    next := drained.value.stream;
    return next, Ok(IngestResult(Apply, [event] + drained.value.applied, next.position));
  }
}
