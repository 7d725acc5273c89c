/** Crash safety of the buyer-history import, with any number of concurrent importers. */
module HistoryImportProperties {
  import opened Common
  import opened HistoryImport

  /** An importer between two of its transactions; an empty page means it is about to fetch. */
  datatype Worker = Worker(at: Option<string>, page: seq<Message>, done: int)

  datatype World = World(cursor: Option<string>, rows: Rows, workers: map<int, Worker>)

  datatype Op =
    | Begin(who: int)
    | Fetch(who: int, limit: int)
    | PutNext(who: int)
    | MoveCursor(who: int)
    | Crash(who: int)
    | RevokeRow(id: string, revokedAt: int)
    | RecordOther(id: string, observation: Observation)

  function Without(w: World, who: int): World { w.(workers := w.workers - {who}) }

  function With(w: World, who: int, worker: Worker): World { w.(workers := w.workers[who := worker]) }

  function AfterPut(w: World, who: int, put: Result<Rows>): World
    requires who in w.workers
  {
    match put
    case Err(_) => Without(w, who)
    case Ok(rows) => With(w, who, w.workers[who].(done := w.workers[who].done + 1)).(rows := rows)
  }

  function AfterMove(w: World, who: int, last: string, advanced: Result<Option<string>>): World {
    match advanced
    case Err(_) => Without(w, who)
    case Ok(cursor) => With(w, who, Worker(Some(last), [], 0)).(cursor := cursor)
  }

  /** One step; an importer that is refused stops. */
  function Step(M: seq<Message>, s: Source, w: World, op: Op): World {
    match op
    case Begin(who) => With(w, who, Worker(w.cursor, [], 0))
    case Fetch(who, limit) =>
      if who !in w.workers || w.workers[who].page != [] then w
      else
        (match LookupPage(M, w.workers[who].at, limit)
         case Err(_) => Without(w, who)
         case Ok(page) => if page.items == [] then Without(w, who)
                          else With(w, who, Worker(w.workers[who].at, page.items, 0)))
    case PutNext(who) =>
      if who !in w.workers || !(0 <= w.workers[who].done < |w.workers[who].page|) then w
      else
        var m := w.workers[who].page[w.workers[who].done];
        AfterPut(w, who, Put(w.rows, s.EvidenceId(m), s.Evidence(m)))
    case MoveCursor(who) =>
      if who !in w.workers || w.workers[who].page == [] || w.workers[who].done != |w.workers[who].page| then w
      else
        var last := w.workers[who].page[|w.workers[who].page| - 1].messageId;
        AfterMove(w, who, last, Advance(w.cursor, w.workers[who].at, last))
    case Crash(who) => Without(w, who)
    case RevokeRow(id, at) => w.(rows := Revoke(w.rows, id, at))
    case RecordOther(id, o) => (match Put(w.rows, id, o) case Err(_) => w case Ok(rows) => w.(rows := rows))
  }

  // ---------------------------------------------------------------- invariant

  ghost predicate IsRowOf(rows: Rows, k: string, s: Source, m: Message) {
    k in rows && rows[k].sourceId == s.id && rows[k].eventId == s.event(m)
  }

  /** The message is in the ledger, content and all, under its own evidence id. */
  ghost predicate Records(rows: Rows, s: Source, m: Message) {
    IsRowOf(rows, s.EvidenceId(m), s, m) && rows[s.EvidenceId(m)].content == m.content
  }

  ghost predicate HeldAt(M: seq<Message>, s: Source, rows: Rows, j: int)
    requires 0 <= j < |M|
  {
    Records(rows, s, M[j])
  }

  /** The messages up to position `p` are in the ledger, each under its own evidence id. */
  ghost predicate Held(M: seq<Message>, s: Source, rows: Rows, p: int) {
    forall j :: 0 <= j <= p && j < |M| ==> HeldAt(M, s, rows, j)
  }

  /** The page in hand is the stretch of the export right after the worker's position. */
  ghost predicate PageOk(M: seq<Message>, worker: Worker) {
    var p := Position(M, worker.at);
    && 0 <= worker.done <= |worker.page| && 0 <= p + 1 && p + 1 + |worker.page| <= |M|
    && forall i :: 0 <= i < |worker.page| ==> worker.page[i] == M[p + 1 + i]
  }

  ghost predicate WorkerOk(M: seq<Message>, s: Source, rows: Rows, worker: Worker) {
    PageOk(M, worker) && Held(M, s, rows, Position(M, worker.at) + worker.done)
  }

  ghost predicate SameEvent(a: Observation, b: Observation) { a.sourceId == b.sourceId && a.eventId == b.eventId }

  /** The table's unique key on the source event. */
  ghost predicate EventsUnique(rows: Rows) {
    forall j, k :: j in rows && k in rows && SameEvent(rows[j], rows[k]) ==> j == k
  }

  ghost predicate Safe(M: seq<Message>, s: Source, w: World) {
    && Position(M, w.cursor) < |M| && Held(M, s, w.rows, Position(M, w.cursor))
    && (forall who :: who in w.workers ==> WorkerOk(M, s, w.rows, w.workers[who]))
    && EventsUnique(w.rows)
  }

  /** Rows are never removed and nothing about them changes but their revocation. */
  ghost predicate RowsGrow(rows: Rows, rows': Rows) {
    forall k :: k in rows ==> k in rows' && rows'[k] == rows[k].(revokedAt := rows'[k].revokedAt)
  }

  lemma HeldForward(M: seq<Message>, s: Source, rows: Rows, rows': Rows, p: int)
    requires Held(M, s, rows, p) && RowsGrow(rows, rows')
    ensures Held(M, s, rows', p)
  {
    forall j | 0 <= j <= p && j < |M| ensures HeldAt(M, s, rows', j) {
      assert HeldAt(M, s, rows, j);
    }
  }

  lemma PutGrows(rows: Rows, id: string, o: Observation)
    requires Put(rows, id, o).Ok? && EventsUnique(rows)
    ensures var rows' := Put(rows, id, o).value;
            RowsGrow(rows, rows') && EventsUnique(rows') && id in rows' && rows'[id] == o
  {
  }

  lemma RevokeGrows(rows: Rows, id: string, at: int)
    requires EventsUnique(rows)
    ensures RowsGrow(rows, Revoke(rows, id, at)) && EventsUnique(Revoke(rows, id, at))
  {
  }

  /** Growing the ledger disturbs neither the cursor nor any importer. */
  lemma GrowthKeepsSafe(M: seq<Message>, s: Source, w: World, rows: Rows)
    requires Safe(M, s, w) && RowsGrow(w.rows, rows) && EventsUnique(rows)
    ensures Safe(M, s, w.(rows := rows))
  {
    HeldForward(M, s, w.rows, rows, Position(M, w.cursor));
    forall who | who in w.workers ensures WorkerOk(M, s, rows, w.workers[who]) {
      HeldForward(M, s, w.rows, rows, Position(M, w.workers[who].at) + w.workers[who].done);
    }
  }

  lemma WorkerChangeKeepsSafe(M: seq<Message>, s: Source, w: World, who: int, worker: Worker)
    requires Safe(M, s, w) && WorkerOk(M, s, w.rows, worker)
    ensures Safe(M, s, With(w, who, worker)) && Safe(M, s, Without(w, who))
  {
  }

  // ---------------------------------------------------------------- the steps

  lemma BeginKeepsSafe(M: seq<Message>, s: Source, w: World, who: int)
    requires Safe(M, s, w)
    ensures Safe(M, s, Step(M, s, w, Begin(who))) && Safe(M, s, Without(w, who))
  {
  }

  lemma FetchedPageOk(M: seq<Message>, at: Option<string>, limit: int)
    requires LookupPage(M, at, limit).Ok?
    ensures PageOk(M, Worker(at, LookupPage(M, at, limit).value.items, 0))
  {
  }

  lemma FetchKeepsSafe(M: seq<Message>, s: Source, w: World, who: int, limit: int)
    requires Keyed(M) && Safe(M, s, w)
    ensures Safe(M, s, Step(M, s, w, Fetch(who, limit)))
  {
    if who in w.workers && w.workers[who].page == [] {
      var at := w.workers[who].at;
      if LookupPage(M, at, limit).Ok? {
        FetchedPageOk(M, at, limit);
        WorkerChangeKeepsSafe(M, s, w, who, Worker(at, LookupPage(M, at, limit).value.items, 0));
      } else {
        BeginKeepsSafe(M, s, w, who);
      }
    }
  }

  lemma PageItem(M: seq<Message>, worker: Worker, i: int)
    requires PageOk(M, worker) && 0 <= i < |worker.page|
    ensures Position(M, worker.at) + 1 + i < |M| && worker.page[i] == M[Position(M, worker.at) + 1 + i]
  {
  }

  lemma HeldOneMore(M: seq<Message>, s: Source, rows: Rows, p: int)
    requires -1 <= p && p + 1 < |M| && Held(M, s, rows, p) && Records(rows, s, M[p + 1])
    ensures Held(M, s, rows, p + 1)
  {
  }

  lemma WorkerAdvances(M: seq<Message>, s: Source, rows: Rows, rows': Rows, worker: Worker)
    requires WorkerOk(M, s, rows, worker) && worker.done < |worker.page| && RowsGrow(rows, rows')
    requires Records(rows', s, worker.page[worker.done])
    ensures WorkerOk(M, s, rows', worker.(done := worker.done + 1))
  {
    var n := Position(M, worker.at) + worker.done;
    HeldForward(M, s, rows, rows', n);
    PageItem(M, worker, worker.done);
    HeldOneMore(M, s, rows', n);
    assert PageOk(M, worker.(done := worker.done + 1));
  }

  lemma RecordKeepsSafe(M: seq<Message>, s: Source, w: World, who: int, worker: Worker, rows: Rows)
    requires Safe(M, s, w) && RowsGrow(w.rows, rows) && EventsUnique(rows) && WorkerOk(M, s, rows, worker)
    ensures Safe(M, s, With(w, who, worker).(rows := rows))
  {
    GrowthKeepsSafe(M, s, w, rows);
    WorkerChangeKeepsSafe(M, s, w.(rows := rows), who, worker);
  }

  lemma AcceptedPut(M: seq<Message>, s: Source, rows: Rows, worker: Worker)
    requires EventsUnique(rows) && WorkerOk(M, s, rows, worker) && worker.done < |worker.page|
    requires Accepts(rows, s, worker.page[worker.done])
    ensures var m := worker.page[worker.done];
            var rows' := Put(rows, s.EvidenceId(m), s.Evidence(m)).value;
            RowsGrow(rows, rows') && EventsUnique(rows') && WorkerOk(M, s, rows', worker.(done := worker.done + 1))
  {
    var m := worker.page[worker.done];
    PutGrows(rows, s.EvidenceId(m), s.Evidence(m));
    WorkerAdvances(M, s, rows, Put(rows, s.EvidenceId(m), s.Evidence(m)).value, worker);
  }

  lemma AfterPutKeepsSafe(M: seq<Message>, s: Source, w: World, who: int, put: Result<Rows>)
    requires Safe(M, s, w) && who in w.workers
    requires put.Ok? ==> RowsGrow(w.rows, put.value) && EventsUnique(put.value)
    requires put.Ok? ==> WorkerOk(M, s, put.value, w.workers[who].(done := w.workers[who].done + 1))
    ensures Safe(M, s, AfterPut(w, who, put)) && AfterPut(w, who, put).cursor == w.cursor
  {
    if put.Ok? {
      RecordKeepsSafe(M, s, w, who, w.workers[who].(done := w.workers[who].done + 1), put.value);
    } else {
      WorkerChangeKeepsSafe(M, s, w, who, w.workers[who]);
    }
  }

  lemma PutKeepsSafe(M: seq<Message>, s: Source, w: World, who: int)
    requires Safe(M, s, w)
    ensures Safe(M, s, Step(M, s, w, PutNext(who))) && Step(M, s, w, PutNext(who)).cursor == w.cursor
  {
    if who in w.workers && 0 <= w.workers[who].done < |w.workers[who].page| {
      var m := w.workers[who].page[w.workers[who].done];
      if Accepts(w.rows, s, m) {
        AcceptedPut(M, s, w.rows, w.workers[who]);
      }
      AfterPutKeepsSafe(M, s, w, who, Put(w.rows, s.EvidenceId(m), s.Evidence(m)));
    }
  }

  lemma LastOfPage(M: seq<Message>, worker: Worker)
    requires Keyed(M) && PageOk(M, worker) && worker.page != []
    ensures var last := Some(worker.page[|worker.page| - 1].messageId);
            Position(M, last) == Position(M, worker.at) + |worker.page| && PageOk(M, Worker(last, [], 0))
  {
    PageItem(M, worker, |worker.page| - 1);
    assert KeyedAt(M, Position(M, worker.at) + |worker.page|);
  }

  lemma WorkerMoves(M: seq<Message>, s: Source, rows: Rows, worker: Worker)
    requires Keyed(M) && WorkerOk(M, s, rows, worker) && worker.page != [] && worker.done == |worker.page|
    ensures var last := Some(worker.page[|worker.page| - 1].messageId);
            && Position(M, worker.at) < Position(M, last) < |M| && Held(M, s, rows, Position(M, last))
            && WorkerOk(M, s, rows, Worker(last, [], 0))
  {
    LastOfPage(M, worker);
  }

  lemma AdvanceIs(cursor: Option<string>, expected: Option<string>, next: string)
    ensures var r := Advance(cursor, expected, next);
            r.Ok? ==> r.value == Some(next) && (cursor == expected || cursor == Some(next))
  {
  }

  lemma AfterMoveKeepsSafe(M: seq<Message>, s: Source, w: World, who: int, last: string,
      advanced: Result<Option<string>>)
    requires Safe(M, s, w) && who in w.workers && (advanced.Ok? ==> advanced.value == Some(last))
    requires Position(M, Some(last)) < |M| && Held(M, s, w.rows, Position(M, Some(last)))
    requires WorkerOk(M, s, w.rows, Worker(Some(last), [], 0))
    ensures Safe(M, s, AfterMove(w, who, last, advanced))
  {
  }

  ghost predicate ReadyToMove(w: World, who: int) {
    who in w.workers && w.workers[who].page != [] && w.workers[who].done == |w.workers[who].page|
  }

  /** The cursor moves only after its page is recorded, */
  lemma MoveKeepsSafe(M: seq<Message>, s: Source, w: World, who: int)
    requires Keyed(M) && Safe(M, s, w)
    ensures Safe(M, s, Step(M, s, w, MoveCursor(who)))
  {
    if ReadyToMove(w, who) {
      var worker := w.workers[who];
      var last := worker.page[|worker.page| - 1].messageId;
      WorkerMoves(M, s, w.rows, worker);
      AdvanceIs(w.cursor, worker.at, last);
      AfterMoveKeepsSafe(M, s, w, who, last, Advance(w.cursor, worker.at, last));
    }
  }

  /** and only forward. */
  lemma MoveIsForward(M: seq<Message>, s: Source, w: World, who: int)
    requires Keyed(M) && Safe(M, s, w)
    ensures Position(M, w.cursor) <= Position(M, Step(M, s, w, MoveCursor(who)).cursor)
  {
    if ReadyToMove(w, who) {
      var worker := w.workers[who];
      LastOfPage(M, worker);
      AdvanceIs(w.cursor, worker.at, worker.page[|worker.page| - 1].messageId);
    }
  }

  lemma StepKeepsSafe(M: seq<Message>, s: Source, w: World, op: Op)
    requires Keyed(M) && Safe(M, s, w)
    ensures var w' := Step(M, s, w, op);
            Safe(M, s, w') && Position(M, w.cursor) <= Position(M, w'.cursor)
  {
    match op
    case Begin(who) => BeginKeepsSafe(M, s, w, who);
    case Fetch(who, limit) => FetchKeepsSafe(M, s, w, who, limit);
    case PutNext(who) => PutKeepsSafe(M, s, w, who);
    case MoveCursor(who) =>
      MoveKeepsSafe(M, s, w, who);
      MoveIsForward(M, s, w, who);
    case Crash(who) => BeginKeepsSafe(M, s, w, who);
    case RevokeRow(id, at) =>
      RevokeGrows(w.rows, id, at);
      GrowthKeepsSafe(M, s, w, Revoke(w.rows, id, at));
    case RecordOther(id, o) =>
      if Put(w.rows, id, o).Ok? {
        PutGrows(w.rows, id, o);
        GrowthKeepsSafe(M, s, w, Put(w.rows, id, o).value);
      }
  }

  // ---------------------------------------------------------------- every history

  ghost predicate History(M: seq<Message>, s: Source, ws: seq<World>, ops: seq<Op>) {
    && |ws| == |ops| + 1
    && forall i {:trigger ops[i]} :: 0 <= i < |ops| ==> ws[i + 1] == Step(M, s, ws[i], ops[i])
  }

  lemma {:induction false} CursorOnlyMovesForward(M: seq<Message>, s: Source, ws: seq<World>, ops: seq<Op>,
      i: int, j: int)
    requires Keyed(M) && History(M, s, ws, ops) && Safe(M, s, ws[0]) && 0 <= i <= j <= |ops|
    ensures Safe(M, s, ws[i]) && Safe(M, s, ws[j])
    ensures Position(M, ws[i].cursor) <= Position(M, ws[j].cursor)
    decreases j
  {
    if i < j {
      CursorOnlyMovesForward(M, s, ws, ops, i, j - 1);
      StepKeepsSafe(M, s, ws[j - 1], ops[j - 1]);
    } else if j != 0 {
      CursorOnlyMovesForward(M, s, ws, ops, j - 1, j - 1);
      StepKeepsSafe(M, s, ws[j - 1], ops[j - 1]);
    }
  }

  /** Crash safety: over a fixed export, whatever importers start, crash, race or are refused,
      the cursor only moves forward in arrival order, and every message at or before it is in
      the ledger exactly once, under its own evidence id. */
  lemma ImportIsCrashSafe(M: seq<Message>, s: Source, ws: seq<World>, ops: seq<Op>, i: int, j: int, m: int)
    requires Export(M) && Injective(s, M) && History(M, s, ws, ops) && Safe(M, s, ws[0]) && 0 <= i <= j <= |ops|
    requires 0 <= m <= Position(M, ws[i].cursor) && m < |M|
    ensures Position(M, ws[i].cursor) <= Position(M, ws[j].cursor) < |M|
    ensures ByArrival(M[Position(M, ws[i].cursor)], M[Position(M, ws[j].cursor)])
    ensures Records(ws[j].rows, s, M[m])
    ensures forall k :: IsRowOf(ws[j].rows, k, s, M[m]) ==> k == s.EvidenceId(M[m])
    ensures forall n :: 0 <= n < |M| && n != m ==> s.EvidenceId(M[n]) != s.EvidenceId(M[m])
  {
    ExportIsKeyed(M);
    CursorOnlyMovesForward(M, s, ws, ops, i, j);
    assert ByArrival(M[Position(M, ws[i].cursor)], M[Position(M, ws[j].cursor)]) by {
      ArrivalIsReflexive(M[Position(M, ws[i].cursor)]);
    }
    assert HeldAt(M, s, ws[j].rows, m);
    forall k | IsRowOf(ws[j].rows, k, s, M[m]) ensures k == s.EvidenceId(M[m]) {
      assert SameEvent(ws[j].rows[k], ws[j].rows[s.EvidenceId(M[m])]);
    }
    forall n | 0 <= n < |M| && n != m ensures s.EvidenceId(M[n]) != s.EvidenceId(M[m]) {
      if s.EvidenceId(M[n]) == s.EvidenceId(M[m]) {
        EvidenceIdInjective(s, M, n, m);
      }
    }
  }

  lemma ArrivalIsReflexive(m: Message)
    ensures ByArrival(m, m)
  {
  }

  /** What a fresh deployment starts from. */
  lemma EmptyWorldIsSafe(M: seq<Message>, s: Source, rows: Rows)
    requires EventsUnique(rows)
    ensures Safe(M, s, World(None, rows, map[]))
    ensures rows == map[] ==> Open(M, s, World(None, rows, map[]))
  {
  }

  // ---------------------------------------------------------------- recovery

  /** The ledger would take every message after the cursor. */
  ghost predicate Open(M: seq<Message>, s: Source, w: World) {
    forall i :: Position(M, w.cursor) < i < |M| ==> TakenAt(M, s, w.rows, i)
  }

  ghost predicate TakenAt(M: seq<Message>, s: Source, rows: Rows, i: int) {
    0 <= i < |M| ==> Accepts(rows, s, M[i])
  }

  /** Another observation sits where the message belongs, under its evidence id or its event. */
  ghost predicate Displaces(s: Source, m: Message, id: string, o: Observation) {
    if id == s.EvidenceId(m) then o != s.Evidence(m) else SameEvent(o, s.Evidence(m))
  }

  ghost predicate DisplacesAt(M: seq<Message>, s: Source, id: string, o: Observation, i: int) {
    0 <= i < |M| && Displaces(s, M[i], id, o)
  }

  ghost predicate NamesAt(M: seq<Message>, s: Source, id: string, i: int) { 0 <= i < |M| && id == s.EvidenceId(M[i]) }

  /** Someone revokes the row of a message that is still to be imported, or puts a new row in
      its place. */
  ghost predicate Disturbs(M: seq<Message>, s: Source, w: World, op: Op) {
    match op
    case RevokeRow(id, _) => id in w.rows && exists i :: Position(M, w.cursor) < i && NamesAt(M, s, id, i)
    case RecordOther(id, o) =>
      id !in w.rows && Put(w.rows, id, o).Ok? && exists i :: Position(M, w.cursor) < i && DisplacesAt(M, s, id, o, i)
    case _ => false
  }

  /** A message that was recorded is taken again, and so is every other one that was. */
  lemma RecordedIsTaken(rows: Rows, s: Source, M: seq<Message>, j: int, i: int)
    requires Injective(s, M) && 0 <= j < |M| && 0 <= i < |M| && Accepts(rows, s, M[j]) && Accepts(rows, s, M[i])
    ensures Accepts(Put(rows, s.EvidenceId(M[j]), s.Evidence(M[j])).value, s, M[i])
  {
    var m := M[j];
    if i != j && s.EvidenceId(m) !in rows {
      if s.EvidenceId(m) == s.EvidenceId(M[i]) {
        EvidenceIdInjective(s, M, j, i);
      }
      OneMoreRow(rows, s.EvidenceId(m), s.Evidence(m), s.EvidenceId(M[i]), s.Evidence(M[i]));
    }
  }

  /** A new row is in a message's way exactly when it displaces it. */
  lemma NewRowIsTakenIff(rows: Rows, s: Source, m: Message, id: string, o: Observation)
    requires id !in rows && Put(rows, id, o).Ok? && Accepts(rows, s, m)
    ensures Accepts(rows[id := o], s, m) <==> !Displaces(s, m, id, o)
  {
    var more := rows[id := o];
    if id != s.EvidenceId(m) {
      if SameEvent(o, s.Evidence(m)) {
        assert s.EvidenceId(m) !in rows;
        assert EventTaken(more, s.Evidence(m)) by { assert id in more && more[id] == o; }
      } else if EventTaken(more, s.Evidence(m)) {
        var j :| j in more && more[j].sourceId == s.id && more[j].eventId == s.event(m);
        assert j in rows && more[j] == rows[j];
      }
    }
  }

  lemma RevokedIsTakenIff(rows: Rows, s: Source, m: Message, id: string, at: int)
    requires Accepts(rows, s, m)
    ensures Accepts(Revoke(rows, id, at), s, m) <==> !(id in rows && id == s.EvidenceId(m))
  {
    var x, after := s.Evidence(m), Revoke(rows, id, at);
    assert EventTaken(after, x) <==> EventTaken(rows, x) by {
      if EventTaken(rows, x) {
        var j :| j in rows && rows[j].sourceId == x.sourceId && rows[j].eventId == x.eventId;
        assert j in after && after[j].sourceId == x.sourceId && after[j].eventId == x.eventId;
      }
    }
  }

  lemma RevokeKeepsOpenIff(M: seq<Message>, s: Source, w: World, id: string, at: int)
    requires Safe(M, s, w) && Open(M, s, w)
    ensures Open(M, s, w.(rows := Revoke(w.rows, id, at))) <==> !Disturbs(M, s, w, RevokeRow(id, at))
  {
    var w' := w.(rows := Revoke(w.rows, id, at));
    forall i | Position(M, w.cursor) < i < |M|
      ensures TakenAt(M, s, w'.rows, i) <==> !(id in w.rows && NamesAt(M, s, id, i))
    {
      assert TakenAt(M, s, w.rows, i);
      RevokedIsTakenIff(w.rows, s, M[i], id, at);
    }
    if Disturbs(M, s, w, RevokeRow(id, at)) {
      var i :| Position(M, w.cursor) < i && NamesAt(M, s, id, i);
      assert !TakenAt(M, s, w'.rows, i);
    }
  }

  lemma RecordKeepsOpenIff(M: seq<Message>, s: Source, w: World, id: string, o: Observation)
    requires Safe(M, s, w) && Open(M, s, w) && id !in w.rows && Put(w.rows, id, o).Ok?
    ensures Open(M, s, w.(rows := w.rows[id := o])) <==> !Disturbs(M, s, w, RecordOther(id, o))
  {
    var w' := w.(rows := w.rows[id := o]);
    forall i | Position(M, w.cursor) < i < |M|
      ensures TakenAt(M, s, w'.rows, i) <==> !DisplacesAt(M, s, id, o, i)
    {
      assert TakenAt(M, s, w.rows, i);
      NewRowIsTakenIff(w.rows, s, M[i], id, o);
    }
    if Disturbs(M, s, w, RecordOther(id, o)) {
      var i :| Position(M, w.cursor) < i && DisplacesAt(M, s, id, o, i);
      assert !TakenAt(M, s, w'.rows, i);
    }
  }

  lemma PutKeepsOpen(M: seq<Message>, s: Source, w: World, who: int)
    requires Injective(s, M) && Safe(M, s, w) && Open(M, s, w)
    ensures Open(M, s, Step(M, s, w, PutNext(who)))
  {
    var w' := Step(M, s, w, PutNext(who));
    if w'.rows != w.rows {
      var worker := w.workers[who];
      PageItem(M, worker, worker.done);
      forall i | Position(M, w'.cursor) < i < |M| ensures TakenAt(M, s, w'.rows, i) {
        assert TakenAt(M, s, w.rows, i);
        RecordedIsTaken(w.rows, s, M, Position(M, worker.at) + 1 + worker.done, i);
      }
    } else {
      assert w'.cursor == w.cursor;
    }
  }

  /** Only a disturbance can close the way ahead of the cursor, and every one does: importers,
      however they crash and race, never stand in each other's way. */
  lemma StepKeepsOpenIff(M: seq<Message>, s: Source, w: World, op: Op)
    requires Keyed(M) && Injective(s, M) && Safe(M, s, w) && Open(M, s, w)
    ensures Open(M, s, Step(M, s, w, op)) <==> !Disturbs(M, s, w, op)
  {
    match op
    case PutNext(who) => PutKeepsOpen(M, s, w, who);
    case MoveCursor(who) =>
      MoveIsForward(M, s, w, who);
      assert Step(M, s, w, op).rows == w.rows;
      forall i | Position(M, Step(M, s, w, op).cursor) < i < |M| ensures TakenAt(M, s, w.rows, i) {
        assert Position(M, w.cursor) < i;
      }
    case RevokeRow(id, at) => RevokeKeepsOpenIff(M, s, w, id, at);
    case RecordOther(id, o) =>
      if id !in w.rows && Put(w.rows, id, o).Ok? {
        RecordKeepsOpenIff(M, s, w, id, o);
      }
    case _ =>
      var w' := Step(M, s, w, op);
      assert w'.rows == w.rows && w'.cursor == w.cursor;
  }

  lemma {:induction false} StaysOpen(M: seq<Message>, s: Source, ws: seq<World>, ops: seq<Op>, n: int)
    requires Keyed(M) && Injective(s, M) && History(M, s, ws, ops) && 0 <= n <= |ops|
    requires Safe(M, s, ws[0]) && Open(M, s, ws[0])
    requires forall i {:trigger ops[i]} :: 0 <= i < n ==> !Disturbs(M, s, ws[i], ops[i])
    ensures Safe(M, s, ws[n]) && Open(M, s, ws[n])
  {
    if n != 0 {
      StaysOpen(M, s, ws, ops, n - 1);
      StepKeepsSafe(M, s, ws[n - 1], ops[n - 1]);
      StepKeepsOpenIff(M, s, ws[n - 1], ops[n - 1]);
    }
  }

  /** An uninterrupted import, ended as `StoppedAt` says, has finished exactly when the ledger
      took every message after its start. */
  lemma ImportFinishesIff(was: Rows, rows: Rows, s: Source, M: seq<Message>, start: int, limit: int, b: int,
      r: Result<int>, at: int)
    requires Injective(s, M) && StoppedAt(was, s, M, start, limit, b, r, at) && Ran(was, rows, s, M, start + 1, b)
    ensures r.Ok? <==> AllAccepted(was, s, M, start + 1, |M|)
    ensures r.Ok? ==> r == Ok(|M| - (start + 1)) && at == |M| - 1 && rows == Imported(was, s, M, start + 1, |M|)
  {
    RunIff(was, s, M, start + 1, b);
    if b < |M| {
      RunIff(was, s, M, start + 1, b + 1);
    }
  }

  /** Recovery: after any number of crashed, racing and refused importers, the next uninterrupted
      import runs to the end of the export, as long as nobody revoked or displaced a message
      that was still to come. */
  lemma ImportRecovers(M: seq<Message>, s: Source, ws: seq<World>, ops: seq<Op>, n: int,
      rows: Rows, limit: int, b: int, r: Result<int>, at: int)
    requires Export(M) && Injective(s, M) && History(M, s, ws, ops) && 0 <= n <= |ops|
    requires Safe(M, s, ws[0]) && Open(M, s, ws[0])
    requires forall i {:trigger ops[i]} :: 0 <= i < n ==> !Disturbs(M, s, ws[i], ops[i])
    requires Ran(ws[n].rows, rows, s, M, Position(M, ws[n].cursor) + 1, b)
    requires StoppedAt(ws[n].rows, s, M, Position(M, ws[n].cursor), limit, b, r, at)
    ensures r == Ok(|M| - 1 - Position(M, ws[n].cursor)) && at == |M| - 1
    ensures rows == Imported(ws[n].rows, s, M, Position(M, ws[n].cursor) + 1, |M|)
  {
    ExportIsKeyed(M);
    StaysOpen(M, s, ws, ops, n);
    var start := Position(M, ws[n].cursor);
    forall i | start + 1 <= i < |M| ensures Accepts(ws[n].rows, s, M[i]) {
      assert TakenAt(M, s, ws[n].rows, i);
    }
    ImportFinishesIff(ws[n].rows, rows, s, M, start, limit, b, r, at);
  }

  /** A message after the cursor whose row was revoked stops every later import before it:
      `put` compares the revoked payload with the original and refuses. */
  lemma RevokedRowStopsImport(rows: Rows, s: Source, M: seq<Message>, a: int, b: int, j: int)
    requires Injective(s, M) && 0 <= a <= j < b <= |M|
    requires s.EvidenceId(M[j]) in rows && rows[s.EvidenceId(M[j])].revokedAt.Some?
    ensures Run(rows, s, M, a, b) == None
  {
    RunIff(rows, s, M, a, b);
    assert !Accepts(rows, s, M[j]);
  }
}
