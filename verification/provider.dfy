/** The synthetic provider, and what it can make the ledger confirm. */
module Provider {
  import opened Common
  import opened Runtime
  import opened Ledger
  import opened Actions
  import Gate = GateProperties

  /** `requests` counts calls per provider key; `confirmed` holds the one receipt of a key. */
  datatype Memory = Memory(unknownFirst: bool, requests: map<string, int>, confirmed: map<string, Receipt>)

  function Reference(actionId: string): string { "synthetic-refund:" + actionId }

  function Confirmation(digest: string -> string, actionId: string, key: string): Receipt {
    Receipt(actionId, Some(key), Confirmed, Outcome(Some(Reference(actionId)), Some(digest(Reference(actionId))), None))
  }

  function NoAnswerYet(actionId: string, key: string): Receipt { Receipt(actionId, Some(key), Unknown, NO_OUTCOME) }

  /** A reference too long for an identifier fails the receipt's own validation, after the
      call has been counted. */
  function Ask(m: Memory, digest: string -> string, actionId: string, key: Option<string>): (Memory, Result<Receipt>) {
    if key.None? then (m, Err(InvalidInput))
    else
      var k := key.value;
      var attempts := (if k in m.requests then m.requests[k] else 0) + 1;
      var counted := m.(requests := m.requests[k := attempts]);
      if k in m.confirmed then (counted, Ok(m.confirmed[k]))
      else if !IsIdentifier(Reference(actionId)) then (counted, Err(Validation))
      else
        (counted.(confirmed := m.confirmed[k := Confirmation(digest, actionId, k)]),
         Ok(if m.unknownFirst && attempts == 1 then NoAnswerYet(actionId, k) else Confirmation(digest, actionId, k)))
  }

  function Lookup(m: Memory, digest: string -> string, actionId: string, key: Option<string>)
    : (Memory, Result<Receipt>)
  {
    if key.Some? && key.value in m.confirmed then (m, Ok(m.confirmed[key.value]))
    else Ask(m, digest, actionId, key)
  }

  class SyntheticActionProvider {
    const unknownFirst: bool
    const digest: string -> string
    var requests: map<string, int>
    var confirmed: map<string, Receipt>

    constructor (unknownFirst: bool, digest: string -> string)
      ensures View() == Memory(unknownFirst, map[], map[]) && this.digest == digest
    {
      this.unknownFirst, this.digest := unknownFirst, digest;
      requests, confirmed := map[], map[];
    }

    function View(): Memory
      reads this
    {
      Memory(unknownFirst, requests, confirmed)
    }

    method Send(actionId: string, key: Option<string>) returns (r: Result<Receipt>)
      modifies this
      ensures (View(), r) == Ask(old(View()), digest, actionId, key)
    {
      if key.None? {
        return Err(InvalidInput);
      }
      var k := key.value;
      var attempts := (if k in requests then requests[k] else 0) + 1;
      requests := requests[k := attempts];
      if k in confirmed {
        return Ok(confirmed[k]);
      }
      var reference := Reference(actionId);
      if !IsIdentifier(reference) {
        return Err(Validation);
      }
      var outcome := Outcome(Some(reference), Some(digest(reference)), None);
      confirmed := confirmed[k := Receipt(actionId, Some(k), Confirmed, outcome)];
      if unknownFirst && attempts == 1 {
        return Ok(Receipt(actionId, Some(k), Unknown, NO_OUTCOME));
      }
      return Ok(confirmed[k]);
    }

    method Reconcile(actionId: string, key: Option<string>) returns (r: Result<Receipt>)
      modifies this
      ensures (View(), r) == Lookup(old(View()), digest, actionId, key)
    {
      if key.None? {
        return Err(InvalidInput);
      }
      if key.value in confirmed {
        return Ok(confirmed[key.value]);
      }
      r := Send(actionId, key);
    }
  }

  // ---------------------------------------------------------------- any mix of calls

  datatype Call = Call(lookup: bool, actionId: string, key: Option<string>)

  function Answer(m: Memory, digest: string -> string, c: Call): (Memory, Result<Receipt>) {
    if c.lookup then Lookup(m, digest, c.actionId, c.key) else Ask(m, digest, c.actionId, c.key)
  }

  ghost predicate Calls(ms: seq<Memory>, digest: string -> string, calls: seq<Call>) {
    && |ms| == |calls| + 1
    && forall i {:trigger calls[i]} :: 0 <= i < |calls| ==> ms[i + 1] == Answer(ms[i], digest, calls[i]).0
  }

  /** Every stored receipt is the genuine confirmation of the action that opened its key. */
  ghost predicate Genuine(m: Memory, digest: string -> string) {
    forall k :: k in m.confirmed ==> m.confirmed[k] == Confirmation(digest, m.confirmed[k].actionId, k)
  }

  lemma AnswerIsGenuine(m: Memory, digest: string -> string, c: Call)
    requires Genuine(m, digest)
    ensures var m' := Answer(m, digest, c).0;
            && Genuine(m', digest)
            && (forall k :: k in m.confirmed ==> k in m'.confirmed && m'.confirmed[k] == m.confirmed[k])
  {
  }

  /** An answer names the key it was asked for and confirms, if at all, with the one stored
      receipt; otherwise it is the UNKNOWN of a call that opened the key. */
  lemma AnswerIsStored(m: Memory, digest: string -> string, c: Call)
    requires Genuine(m, digest) && Answer(m, digest, c).1.Ok?
    ensures c.key.Some?
    ensures var m', r, k := Answer(m, digest, c).0, Answer(m, digest, c).1.value, c.key.value;
            && k in m'.confirmed && r.providerKey == c.key && r.actionId == m'.confirmed[k].actionId
            && (r == m'.confirmed[k] || (m.unknownFirst && r == NoAnswerYet(c.actionId, k) && k !in m.confirmed))
  {
  }

  lemma {:induction false} ReceiptsAreStable(ms: seq<Memory>, digest: string -> string, calls: seq<Call>,
      i: int, j: int)
    requires Calls(ms, digest, calls) && Genuine(ms[0], digest) && 0 <= i <= j <= |calls|
    ensures Genuine(ms[i], digest) && Genuine(ms[j], digest)
    ensures forall k :: k in ms[i].confirmed ==> k in ms[j].confirmed && ms[j].confirmed[k] == ms[i].confirmed[k]
    decreases j
  {
    if i < j {
      ReceiptsAreStable(ms, digest, calls, i, j - 1);
      AnswerIsGenuine(ms[j - 1], digest, calls[j - 1]);
    } else if j != 0 {
      ReceiptsAreStable(ms, digest, calls, j - 1, j - 1);
      AnswerIsGenuine(ms[j - 1], digest, calls[j - 1]);
    }
  }

  /** One external operation per provider key: under any mix of requests, lookups and retries,
      for whatever actions, every later answer on a key that was answered once is the one
      genuine receipt of that key, for the action that opened it. UNKNOWN comes at most once. */
  lemma OneOperationPerKey(ms: seq<Memory>, digest: string -> string, calls: seq<Call>, i: int, j: int)
    requires Calls(ms, digest, calls) && Genuine(ms[0], digest) && 0 <= i < j < |calls|
    requires calls[i].key == calls[j].key
    requires Answer(ms[i], digest, calls[i]).1.Ok? && Answer(ms[j], digest, calls[j]).1.Ok?
    ensures var first, second := Answer(ms[i], digest, calls[i]).1.value, Answer(ms[j], digest, calls[j]).1.value;
            && second.state.Confirmed? && second.actionId == first.actionId
            && (first.state.Confirmed? ==> first == second)
            && second == Confirmation(digest, second.actionId, calls[j].key.value)
  {
    ReceiptsAreStable(ms, digest, calls, i, i);
    AnswerIsStored(ms[i], digest, calls[i]);
    ReceiptsAreStable(ms, digest, calls, i + 1, j);
    AnswerIsStored(ms[j], digest, calls[j]);
  }

  // ---------------------------------------------------------------- ledger and provider together

  /** `issued` are the receipts the provider has handed out so far. */
  datatype World = World(books: Books, memory: Memory, issued: set<Receipt>)

  datatype Move =
    | Query(call: Call)
    | Record(op: Gate.Op)

  ghost predicate Moves(w: World, digest: string -> string, move: Move, w': World) {
    match move
    case Query(call) =>
      var (m, r) := Answer(w.memory, digest, call);
      w' == World(w.books, m, if r.Ok? then w.issued + {r.value} else w.issued)
    case Record(op) => Gate.StepsTo(w.books, op, w'.books) && w' == w.(books := w'.books)
  }

  ghost predicate Trace(ws: seq<World>, digest: string -> string, moves: seq<Move>) {
    && |ws| == |moves| + 1
    && forall i {:trigger moves[i]} :: 0 <= i < |moves| ==> Moves(ws[i], digest, moves[i], ws[i + 1])
  }

  ghost predicate IsGenuineReceipt(digest: string -> string, r: Receipt) {
    r.state.Confirmed? ==> r.providerKey.Some? && r == Confirmation(digest, r.actionId, r.providerKey.value)
  }

  /** A confirmed row carries its own action's receipt. */
  ghost predicate OwnReceipt(digest: string -> string, k: ActionKey, a: Action) {
    a.state.Confirmed? ==>
      a.outcome == Outcome(Some(Reference(k.actionId)), Some(digest(Reference(k.actionId))), None)
  }

  ghost predicate OwnAt(b: Books, digest: string -> string, k: ActionKey) {
    k in b.actions ==> OwnReceipt(digest, k, b.actions[k])
  }

  /** What the provider has given out is genuine. */
  ghost predicate Issues(w: World, digest: string -> string) {
    Genuine(w.memory, digest) && forall r :: r in w.issued ==> IsGenuineReceipt(digest, r)
  }

  /** The result is entered by hand, or from a receipt the provider has not issued. */
  ghost predicate Bypasses(w: World, op: Gate.Op) {
    || (op.Settle? && op.state.Confirmed?)
    || (op.SettleByReceipt? && op.receipt !in w.issued)
  }

  ghost predicate IsConfirmed(b: Books, k: ActionKey) { k in b.actions && b.actions[k].state.Confirmed? }

  /** This move confirmed the action without the provider. */
  ghost predicate ConfirmedByHand(w: World, move: Move, w': World, k: ActionKey) {
    move.Record? && Bypasses(w, move.op) && !IsConfirmed(w.books, k) && IsConfirmed(w'.books, k)
  }

  lemma ReceiptConfirmsOwn(b: Books, digest: string -> string, receipt: Receipt, claim: Claim, k: ActionKey)
    requires IsGenuineReceipt(digest, receipt) && k in b.actions && OwnReceipt(digest, k, b.actions[k])
    ensures var b' := MarkReceipt(b, receipt, claim).0;
            k in b'.actions && OwnReceipt(digest, k, b'.actions[k])
  {
  }

  /** Only a mark can confirm. */
  ghost predicate ConfirmsNothing(b: Books, b': Books, k: ActionKey) {
    IsConfirmed(b', k) ==> k in b.actions && b'.actions[k] == b.actions[k]
  }

  lemma RuleConfirmsNothing(b: Books, op: Gate.Op, b': Books, k: ActionKey)
    requires Gate.StepsTo(b, op, b') && op.Rule?
    ensures ConfirmsNothing(b, b', k)
  {
    if b' != b {
      var p := b.approvals[op.key];
      if p.request.binding.Some? {
        Gate.SignalWritesNeither(b.(approvals := b'.approvals), op.key.tenantId, p.request);
      }
    }
  }

  lemma OthersConfirmNothing(b: Books, op: Gate.Op, b': Books, k: ActionKey)
    requires Gate.StepsTo(b, op, b') && !op.Rule? && !op.SettleByReceipt? && (op.Settle? ==> !op.state.Confirmed?)
    ensures ConfirmsNothing(b, b', k)
  {
  }

  lemma OpConfirmsOwn(b: Books, digest: string -> string, op: Gate.Op, b': Books, k: ActionKey)
    requires Gate.StepsTo(b, op, b') && k in b'.actions && OwnAt(b, digest, k)
    requires (op.SettleByReceipt? ==> IsGenuineReceipt(digest, op.receipt)) && (op.Settle? ==> !op.state.Confirmed?)
    ensures OwnReceipt(digest, k, b'.actions[k])
  {
    if op.SettleByReceipt? {
      MarksKeepConfirmed(b, op, b', k);
      ReceiptConfirmsOwn(b, digest, op.receipt, op.claim, k);
    } else if op.Rule? {
      RuleConfirmsNothing(b, op, b', k);
    } else {
      OthersConfirmNothing(b, op, b', k);
    }
  }

  /** Once confirmed, no mark changes a row. */
  lemma MarksKeepConfirmed(b: Books, op: Gate.Op, b': Books, k: ActionKey)
    requires Gate.StepsTo(b, op, b') && (op.Settle? || op.SettleByReceipt?) && k in b'.actions
    ensures k in b.actions && (IsConfirmed(b, k) ==> b'.actions[k] == b.actions[k])
  {
  }

  lemma MoveKeepsIssues(w: World, digest: string -> string, move: Move, w': World)
    requires Issues(w, digest) && Moves(w, digest, move, w')
    ensures Issues(w', digest)
  {
    if move.Query? {
      AnswerIsGenuine(w.memory, digest, move.call);
      if Answer(w.memory, digest, move.call).1.Ok? {
        AnswerIsStored(w.memory, digest, move.call);
      }
    }
  }

  lemma MoveConfirmsOwn(w: World, digest: string -> string, move: Move, w': World, k: ActionKey)
    requires Issues(w, digest) && Moves(w, digest, move, w') && OwnAt(w.books, digest, k)
    ensures OwnAt(w'.books, digest, k) || ConfirmedByHand(w, move, w', k)
  {
    if move.Record? && k in w'.books.actions {
      if Bypasses(w, move.op) {
        MarksKeepConfirmed(w.books, move.op, w'.books, k);
      } else {
        OpConfirmsOwn(w.books, digest, move.op, w'.books, k);
      }
    }
  }

  /** Whatever mix of requests, lookups, UNKNOWN answers, retries and marks happens, an action
      is confirmed with its own receipt, or some move confirmed it without the provider. */
  lemma {:induction false} ConfirmedWithOwnReceipt(ws: seq<World>, digest: string -> string, moves: seq<Move>,
      n: int, k: ActionKey)
    requires Trace(ws, digest, moves) && 0 <= n <= |moves| && Issues(ws[0], digest)
    requires OwnAt(ws[0].books, digest, k)
    ensures Issues(ws[n], digest)
    ensures || OwnAt(ws[n].books, digest, k)
            || exists i :: 0 <= i < n && ConfirmedByHand(ws[i], moves[i], ws[i + 1], k)
  {
    if n != 0 {
      ConfirmedWithOwnReceipt(ws, digest, moves, n - 1, k);
      MoveKeepsIssues(ws[n - 1], digest, moves[n - 1], ws[n]);
      if OwnAt(ws[n - 1].books, digest, k) {
        MoveConfirmsOwn(ws[n - 1], digest, moves[n - 1], ws[n], k);
      }
    }
  }

  /** And a move can: `mark_result` takes any reference for an action that was sent, as long as
      reference and digest are well formed. */
  lemma AnyReferenceConfirms(w: World, digest: string -> string, claim: Claim, actionId: string, o: Outcome)
    requires Locked(w.books, actionId, claim).Ok?
    requires var s := Locked(w.books, actionId, claim).value.state; s.Requested? || s.Unknown?
    requires ResultArgumentsOk(Confirmed, o) && RowAccepts(Confirmed, o).Ok?
    ensures var op := Gate.Settle(actionId, claim, Confirmed, o);
            var w' := w.(books := MarkResult(w.books, actionId, claim, Confirmed, o).0);
            var k := ActionKey(claim.tenantId, actionId);
            && Moves(w, digest, Record(op), w') && ConfirmedByHand(w, Record(op), w', k)
            && w'.books.actions[k].outcome == o
  {
  }
}
