/** Buyer-history import: cursor paging over a fixed export, evidence first, cursor last. */
module HistoryImport {
  import opened Common
  import opened Division
  import opened Ordering

  datatype Message = Message(messageId: string, receivedAt: int, content: string)

  /** A ledger row. Revoking keeps the row and changes its payload. */
  datatype Observation = Observation(sourceId: string, eventId: string, content: string, revokedAt: Option<int>)

  type Rows = map<string, Observation>

  const MAX_PAGE: int := 16

  function ByArrival(a: Message, b: Message): bool {
    a.receivedAt < b.receivedAt || (a.receivedAt == b.receivedAt && StrLe(a.messageId, b.messageId))
  }

  function MessageId(m: Message): string { m.messageId }

  // ---------------------------------------------------------------- paging

  datatype Page = Page(items: seq<Message>, lastMessageId: Option<string>, nextCursor: Option<string>)

  /** The first message with this id, or the length of the list. */
  function IndexOf(M: seq<Message>, id: string): nat
    ensures IndexOf(M, id) <= |M|
    ensures IndexOf(M, id) < |M| ==> M[IndexOf(M, id)].messageId == id
    ensures forall i :: 0 <= i < IndexOf(M, id) ==> M[i].messageId != id
  {
    if M == [] || M[0].messageId == id then 0 else 1 + IndexOf(M[1..], id)
  }

  /** `lookup_buyer_messages` on the sorted messages of an order. */
  function LookupPage(M: seq<Message>, after: Option<string>, limit: int): Result<Page> {
    if !(1 <= limit <= MAX_PAGE) then Err(InvalidInput)
    else if after.Some? && (after.value == "" || IndexOf(M, after.value) == |M|) then Err(InvalidInput)
    else
      var start := if after.Some? then IndexOf(M, after.value) + 1 else 0;
      var end := if start + limit <= |M| then start + limit else |M|;
      var selected := M[start..end];
      var last := if selected != [] then Some(selected[|selected| - 1].messageId) else None;
      Ok(Page(selected, last, if end < |M| then last else None))
  }

  // ---------------------------------------------------------------- the ledger and the cursor

  /** How a message becomes evidence; the digests behind the event id are a parameter. */
  datatype Source = Source(id: string, event: Message -> string) {
    function EvidenceId(m: Message): string { id + ":" + event(m) }
    function Evidence(m: Message): Observation { Observation(id, event(m), m.content, None) }
  }

  predicate EventTaken(rows: Rows, o: Observation) {
    exists k :: k in rows && rows[k].sourceId == o.sourceId && rows[k].eventId == o.eventId
  }

  /** `put`: insert, or return the exact replay, or conflict. */
  function Put(rows: Rows, id: string, o: Observation): Result<Rows> {
    if id in rows then (if rows[id] == o then Ok(rows) else Err(Conflict))
    else if EventTaken(rows, o) then Err(Conflict)
    else Ok(rows[id := o])
  }

  function Revoke(rows: Rows, id: string, at: int): Rows {
    if id in rows && rows[id].revokedAt.None? then rows[id := rows[id].(revokedAt := Some(at))] else rows
  }

  /** `advance`: compare-and-set, then re-read; an equal position set elsewhere is accepted. */
  function Advance(cursor: Option<string>, expected: Option<string>, next: string): Result<Option<string>> {
    if next == "" || expected == Some(next) then Err(InvalidInput)
    else
      var after := if cursor == expected then Some(next) else cursor;
      if after.None? then Err(Retryable) else if after == Some(next) then Ok(after) else Err(Conflict)
  }

  // ---------------------------------------------------------------- one uninterrupted call

  /** A well-formed export, as the dataset validator guarantees it. */
  ghost predicate Export(M: seq<Message>) {
    && SortedBy(ByArrival, M) && DistinctBy(MessageId, M)
    && forall i :: 0 <= i < |M| ==> M[i].messageId != ""
  }

  ghost predicate Injective(s: Source, M: seq<Message>) {
    forall i, j :: 0 <= i < |M| && 0 <= j < |M| && s.event(M[i]) == s.event(M[j]) ==> i == j
  }

  /** Where a cursor stands: -1 before the first message, the length if it is unknown. */
  function Position(M: seq<Message>, cursor: Option<string>): int {
    if cursor.None? then -1 else if cursor.value == "" then |M| else IndexOf(M, cursor.value)
  }

  /** Every message is found under its own id. */
  ghost predicate Keyed(M: seq<Message>) { forall p :: 0 <= p < |M| ==> KeyedAt(M, p) }

  ghost predicate KeyedAt(M: seq<Message>, p: int)
    requires 0 <= p < |M|
  {
    Position(M, Some(M[p].messageId)) == p
  }

  lemma ExportIsKeyed(M: seq<Message>)
    requires Export(M)
    ensures Keyed(M)
  {
  }

  ghost predicate Accepts(rows: Rows, s: Source, m: Message) {
    Put(rows, s.EvidenceId(m), s.Evidence(m)).Ok?
  }

  /** The rows with the messages from `a` up to `b` added. */
  ghost function Imported(rows: Rows, s: Source, M: seq<Message>, a: int, b: int): Rows
    requires 0 <= a <= b <= |M|
  {
    if a == b then rows else Imported(rows, s, M, a, b - 1)[s.EvidenceId(M[b - 1]) := s.Evidence(M[b - 1])]
  }

  lemma EvidenceIdInjective(s: Source, M: seq<Message>, i: int, j: int)
    requires Injective(s, M) && 0 <= i < |M| && 0 <= j < |M| && s.EvidenceId(M[i]) == s.EvidenceId(M[j])
    ensures i == j
  {
    var n := |s.id + ":"|;
    assert s.EvidenceId(M[i])[n..] == s.event(M[i]) && s.EvidenceId(M[j])[n..] == s.event(M[j]);
  }

  ghost predicate AllAccepted(rows: Rows, s: Source, M: seq<Message>, a: int, b: int)
    requires 0 <= a <= b <= |M|
  {
    forall i :: a <= i < b ==> Accepts(rows, s, M[i])
  }

  /** Importing accepted messages does not change whether a later one is accepted. */
  lemma {:induction false} AcceptanceIsIndependent(rows: Rows, s: Source, M: seq<Message>, a: int, b: int, j: int)
    requires Injective(s, M) && 0 <= a <= b <= j < |M| && AllAccepted(rows, s, M, a, b)
    ensures Accepts(Imported(rows, s, M, a, b), s, M[j]) <==> Accepts(rows, s, M[j])
    decreases b
  {
    if a < b {
      AcceptanceIsIndependent(rows, s, M, a, b - 1, j);
      AcceptanceIsIndependent(rows, s, M, a, b - 1, b - 1);
      var m := M[b - 1];
      if s.EvidenceId(m) == s.EvidenceId(M[j]) {
        EvidenceIdInjective(s, M, b - 1, j);
      }
      assert s.event(m) != s.event(M[j]);
      OneMoreRow(Imported(rows, s, M, a, b - 1), s.EvidenceId(m), s.Evidence(m), s.EvidenceId(M[j]), s.Evidence(M[j]));
    }
  }

  lemma OneMoreRow(rows: Rows, k: string, o: Observation, id: string, x: Observation)
    requires k != id && o.eventId != x.eventId && (k in rows ==> rows[k] == o)
    ensures Put(rows[k := o], id, x).Ok? <==> Put(rows, id, x).Ok?
  {
    var more := rows[k := o];
    if EventTaken(rows, x) {
      var j :| j in rows && rows[j].sourceId == x.sourceId && rows[j].eventId == x.eventId;
      assert j in more && more[j] == rows[j];
    }
    if EventTaken(more, x) {
      var j :| j in more && more[j].sourceId == x.sourceId && more[j].eventId == x.eventId;
      assert j in rows && more[j] == rows[j];
    }
  }

  /** Recording the messages from `a` up to `b` one by one; None once one is refused. */
  ghost function Run(was: Rows, s: Source, M: seq<Message>, a: int, b: int): Option<Rows>
    requires 0 <= a <= b <= |M|
  {
    if a == b then Some(was)
    else
      match Run(was, s, M, a, b - 1)
      case None => None
      case Some(rows) => Next(rows, s, M[b - 1])
  }

  ghost function Next(rows: Rows, s: Source, m: Message): Option<Rows> {
    match Put(rows, s.EvidenceId(m), s.Evidence(m)) case Ok(next) => Some(next) case Err(_) => None
  }

  lemma NextIs(rows: Rows, s: Source, m: Message)
    ensures Next(rows, s, m) == if Accepts(rows, s, m) then Some(rows[s.EvidenceId(m) := s.Evidence(m)]) else None
  {
    if s.EvidenceId(m) in rows && rows[s.EvidenceId(m)] == s.Evidence(m) {
      assert rows[s.EvidenceId(m) := s.Evidence(m)] == rows;
    }
  }

  ghost predicate Ran(was: Rows, rows: Rows, s: Source, M: seq<Message>, a: int, b: int) {
    0 <= a <= b <= |M| && Run(was, s, M, a, b) == Some(rows)
  }

  /** A run of `put`s succeeds exactly when the ledger would have taken each message by
      itself, and then adds exactly those messages. */
  lemma {:induction false} RunIff(was: Rows, s: Source, M: seq<Message>, a: int, b: int)
    requires Injective(s, M) && 0 <= a <= b <= |M|
    ensures Run(was, s, M, a, b) == if AllAccepted(was, s, M, a, b) then Some(Imported(was, s, M, a, b)) else None
    decreases b
  {
    if a < b {
      RunIff(was, s, M, a, b - 1);
      assert AllAccepted(was, s, M, a, b) <==> AllAccepted(was, s, M, a, b - 1) && Accepts(was, s, M[b - 1]);
      if AllAccepted(was, s, M, a, b - 1) {
        AcceptanceIsIndependent(was, s, M, a, b - 1, b - 1);
        NextIs(Imported(was, s, M, a, b - 1), s, M[b - 1]);
      }
    }
  }

  /** What a page is: the next at most `limit` messages after a known cursor. */
  lemma PageIsSlice(M: seq<Message>, after: Option<string>, limit: int)
    ensures LookupPage(M, after, limit).Ok? <==> 1 <= limit <= MAX_PAGE && Position(M, after) < |M|
    ensures LookupPage(M, after, limit).Err? ==> LookupPage(M, after, limit) == Err(InvalidInput)
    ensures LookupPage(M, after, limit).Ok? ==> IsPage(M, Position(M, after), limit, LookupPage(M, after, limit).value)
  {
  }

  /** `items` are the messages from position `p` on. */
  ghost predicate Stretch(M: seq<Message>, p: int, items: seq<Message>) {
    && 0 <= p && p + |items| <= |M|
    && forall i :: 0 <= i < |items| ==> items[i] == M[p + i]
  }

  /** The next `limit` messages after position `p`, or all that are left. */
  ghost predicate IsPage(M: seq<Message>, p: int, limit: int, page: Page) {
    && Stretch(M, p + 1, page.items)
    && |page.items| == (if limit <= |M| - (p + 1) then limit else |M| - (p + 1))
    && (page.items == [] <==> p + 1 == |M|)
    && (page.items != [] ==> page.lastMessageId == Some(M[p + |page.items|].messageId))
    && (page.nextCursor.None? <==> p + 1 + |page.items| == |M|)
  }

  method FetchPage(M: seq<Message>, after: Option<string>, limit: int) returns (r: Result<Page>)
    ensures r.Ok? <==> 1 <= limit <= MAX_PAGE && Position(M, after) < |M|
    ensures r.Ok? ==> IsPage(M, Position(M, after), limit, r.value)
    ensures r.Err? ==> r == Err(InvalidInput)
  {
    PageIsSlice(M, after, limit);
    r := LookupPage(M, after, limit);
  }

  ghost predicate WholePages(n: int, limit: int) { 0 <= n && 1 <= limit && n == RoundDown(n, limit) }

  /** How an import from position `start` ends that got up to message `b`: all were imported, or
      `b` was refused and the cursor stands at the end of the last complete page before it. */
  ghost predicate StoppedAt(was: Rows, s: Source, M: seq<Message>, start: int, limit: int, b: int,
      r: Result<int>, at: int)
  {
    && -1 <= start < b <= |M| && 1 <= limit
    && (if b == |M| then r == Ok(|M| - (start + 1)) && at == |M| - 1
        else && Run(was, s, M, start + 1, b + 1).None? && r == Err(Conflict)
             && at == start + RoundDown(b - 1 - start, limit))
  }

  datatype Status = More | Finished | Refused

  class Importer {
    var cursor: Option<string>
    var rows: Rows

    constructor (cursor: Option<string>, rows: Rows)
      ensures this.cursor == cursor && this.rows == rows
    {
      this.cursor, this.rows := cursor, rows;
    }

    /** `import_buyer_history`, uninterrupted and alone: it imports precisely the messages after
        its start cursor, up to the first one the ledger refuses, and leaves the cursor on the
        last complete page. `b` is where it stopped. */
    method ImportHistory(M: seq<Message>, s: Source, limit: int) returns (r: Result<int>, ghost b: int)
      requires Keyed(M)
      modifies this
      ensures !(1 <= limit <= MAX_PAGE) || Position(M, old(cursor)) == |M| ==>
                r == Err(InvalidInput) && cursor == old(cursor) && rows == old(rows)
      ensures 1 <= limit <= MAX_PAGE && Position(M, old(cursor)) < |M| ==>
                && Ran(old(rows), rows, s, M, Position(M, old(cursor)) + 1, b)
                && StoppedAt(old(rows), s, M, Position(M, old(cursor)), limit, b, r, Position(M, cursor))
    {
      if !(1 <= limit <= MAX_PAGE) || Position(M, cursor) == |M| {
        return Err(InvalidInput), 0;
      }
      r, b := ImportFrom(M, s, limit, Position(M, cursor));
    }

    /** The paging loop, from a known position. */
    method ImportFrom(M: seq<Message>, s: Source, limit: int, ghost start: int) returns (r: Result<int>, ghost b: int)
      requires Keyed(M) && 1 <= limit <= MAX_PAGE && start == Position(M, cursor) < |M|
      modifies this
      ensures Ran(old(rows), rows, s, M, start + 1, b)
      ensures StoppedAt(old(rows), s, M, start, limit, b, r, Position(M, cursor))
    {
      ghost var p := start;
      var imported := 0;
      while true
        invariant start <= p < |M| && p == Position(M, cursor)
        invariant imported == p - start && WholePages(p - start, limit)
        invariant Ran(old(rows), rows, s, M, start + 1, p + 1)
        decreases |M| - p
      {
        var status, done;
        status, done, b := ImportPage(M, s, limit, old(rows), start + 1, p);
        RoundedPlus(p - start, limit, if done < limit then done else 0);
        imported := imported + done;
        if status.Finished? {
          return Ok(imported), b;
        }
        if status.Refused? {
          return Err(Conflict), b;
        }
        p := b - 1;
      }
    }

    /** One round: fetch a page, record it, then move the cursor. */
    method ImportPage(M: seq<Message>, s: Source, limit: int, ghost was: Rows, ghost a: int, ghost p: int)
      returns (status: Status, done: int, ghost b: int)
      requires Keyed(M) && 1 <= limit <= MAX_PAGE
      requires p == Position(M, cursor) < |M| && 0 <= a <= p + 1 && Ran(was, rows, s, M, a, p + 1)
      modifies this
      ensures 0 <= done && b == p + 1 + done <= |M| && Ran(was, rows, s, M, a, b)
      ensures status.More? ==> done == limit && b < |M| && Position(M, cursor) == b - 1
      ensures status.Finished? ==> b == |M| && Position(M, cursor) == |M| - 1
      ensures status.Refused? ==> done < limit && b < |M| && Run(was, s, M, a, b + 1).None? && cursor == old(cursor)
    {
      var messageId := cursor;
      var fetched := FetchPage(M, messageId, limit);
      var page := fetched.value;
      if page.items == [] {
        return Finished, 0, p + 1;
      }
      done, b := PutPage(page.items, s, M, was, a, p + 1);
      if done < |page.items| {
        return Refused, done, b;
      }
      assert KeyedAt(M, p + done);
      cursor := Advance(cursor, messageId, page.lastMessageId.value).value;
      return if page.nextCursor.None? then Finished else More, done, b;
    }

    /** Record a page message by message; stop at the first refusal. */
    method PutPage(items: seq<Message>, s: Source, ghost M: seq<Message>, ghost was: Rows, ghost a: int, ghost p: int)
      returns (done: int, ghost b: int)
      requires 0 <= a <= p && Stretch(M, p, items)
      requires Ran(was, rows, s, M, a, p)
      modifies this`rows
      ensures 0 <= done <= |items| && b == p + done && Ran(was, rows, s, M, a, b)
      ensures done < |items| ==> Run(was, s, M, a, b + 1).None?
    {
      for i := 0 to |items|
        invariant Ran(was, rows, s, M, a, p + i)
      {
        assert items[i] == M[p + i];
        var put := Put(rows, s.EvidenceId(items[i]), s.Evidence(items[i]));
        if put.Err? {
          return i, p + i;
        }
        rows := put.value;
      }
      return |items|, p + |items|;
    }
  }
}
