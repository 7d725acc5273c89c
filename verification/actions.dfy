/** The action ledger: an external obligation is recorded once, before any provider call. */
module Actions {
  import opened Common
  import opened Runtime
  import opened Runs
  import opened Ledger
  import Approvals

  // ---------------------------------------------------------------- reserve

  predicate SharesKey(k: ActionKey, a: Action, intent: Intent) {
    && k.tenantId == intent.tenantId
    && (k.actionId == intent.actionId || a.params.businessKey == intent.params.businessKey
        || a.idempotencyKey == intent.idempotencyKey)
  }

  /** The three unique keys of the table. */
  ghost predicate KeysUnique(actions: map<ActionKey, Action>) {
    forall j, k :: j in actions && k in actions && j != k && j.tenantId == k.tenantId ==>
      && actions[j].params.businessKey != actions[k].params.businessKey
      && actions[j].idempotencyKey != actions[k].idempotencyKey
  }

  ghost predicate HasIdempotencyKey(actions: map<ActionKey, Action>, tenantId: string, key: string, k: ActionKey) {
    k in actions && k.tenantId == tenantId && actions[k].idempotencyKey == key
  }

  ghost predicate HasBusinessKey(actions: map<ActionKey, Action>, tenantId: string, key: string, k: ActionKey) {
    k in actions && k.tenantId == tenantId && actions[k].params.businessKey == key
  }

  datatype Reservation = Reservation(key: ActionKey, action: Action, replayed: bool)

  /** How an insert refused by one of the unique keys is answered. A relation, because the
      candidate rows arrive in no particular order; `KeysUnique` makes it a function. */
  ghost predicate ConflictAnswer(actions: map<ActionKey, Action>, intent: Intent, r: Result<Reservation>) {
    if exists k :: HasIdempotencyKey(actions, intent.tenantId, intent.idempotencyKey, k) then
      exists k :: HasIdempotencyKey(actions, intent.tenantId, intent.idempotencyKey, k)
        && r == if k == intent.Key() && actions[k].params == intent.params then Ok(Reservation(k, actions[k], true))
                else Err(Conflict)
    else if intent.Key() in actions && actions[intent.Key()].params != intent.params then r == Err(Conflict)
    else if exists k :: HasBusinessKey(actions, intent.tenantId, intent.params.businessKey, k) then
      exists k :: HasBusinessKey(actions, intent.tenantId, intent.params.businessKey, k)
        && r == if actions[k].params == intent.params then Ok(Reservation(k, actions[k], true)) else Err(Conflict)
    else r == Err(Conflict)
  }

  function Fresh(intent: Intent): Action {
    Action(intent.caseId, intent.idempotencyKey, intent.params, Reserved, NO_OUTCOME, None)
  }

  predicate Taken(actions: map<ActionKey, Action>, intent: Intent) {
    exists k :: k in actions && SharesKey(k, actions[k], intent)
  }

  /** What `reserve` may do: `b'` is the committed state and `r` the answer. */
  ghost predicate Reserves(b: Books, intent: Intent, claim: Option<Claim>, b': Books, r: Result<Reservation>) {
    if claim.Some? && (intent.tenantId, intent.caseId) != (claim.value.tenantId, claim.value.caseId)
    then b' == b && r == Err(Forbidden)
    else if claim.Some? && ClaimValid(b.table, claim.value).Err?
    then b' == b && r == Err(ClaimValid(b.table, claim.value).code)
    else if Taken(b.actions, intent) then b' == b && ConflictAnswer(b.actions, intent, r)
    else if CaseKey(intent.tenantId, intent.caseId) !in b.table.cases then b' == b && r == Err(Database)
    else
      && b' == b.(actions := b.actions[intent.Key() := Fresh(intent)])
      && r == Ok(Reservation(intent.Key(), Fresh(intent), false))
  }

  // ---------------------------------------------------------------- dispatch and results

  function ActionSuccessors(s: ActionState): set<ActionState> {
    match s
    case Reserved => {Requested, Failed}
    case Requested => {Unknown, Confirmed, Failed}
    case Unknown => {Confirmed, Failed}
    case Confirmed => {}
    case Failed => {}
  }

  /** The locked action, once the claim and the scope have been checked. */
  function Locked(b: Books, actionId: string, claim: Claim): Result<Action> {
    var k := ActionKey(claim.tenantId, actionId);
    if ClaimValid(b.table, claim).Err? then Err(ClaimValid(b.table, claim).code)
    else if k !in b.actions || b.actions[k].caseId != claim.caseId then Err(Forbidden)
    else Ok(b.actions[k])
  }

  function Update(b: Books, k: ActionKey, a: Action): Books { b.(actions := b.actions[k := a]) }

  function DispatchGate(b: Books, k: ActionKey, a: Action, approvalId: Option<string>, policy: Option<string>)
    : Result<()>
  {
    if !a.params.approvalRequired then (if approvalId.Some? then Err(InvalidInput) else Ok(()))
    else if approvalId.None? then Err(Forbidden)
    else if policy.None? then Err(InvalidInput)
    else
      var approval := ApprovalKey(k.tenantId, approvalId.value);
      if approval !in b.approvals then Err(Forbidden)
      else
        Approvals.AssertUsable(approval, b.approvals[approval], k, a.caseId, a.params.parametersSha, policy.value,
                               b.table.now)
  }

  function MarkRequested(b: Books, actionId: string, claim: Claim, approvalId: Option<string>, policy: Option<string>)
    : (Books, Result<Action>)
  {
    var k := ActionKey(claim.tenantId, actionId);
    match Locked(b, actionId, claim)
    case Err(code) => (b, Err(code))
    case Ok(a) =>
      if !a.state.Reserved? then (b, Ok(a))
      else if DispatchGate(b, k, a, approvalId, policy).Err?
      then (b, Err(DispatchGate(b, k, a, approvalId, policy).code))
      else
        var row := a.(state := Requested, outcome := NO_OUTCOME, fencingToken := Some(claim.fencingToken));
        (Update(b, k, row), Ok(row))
  }

  predicate Present(s: Option<string>) { s.Some? && s.value != "" }

  /** The argument checks of `mark_result`. */
  predicate ResultArgumentsOk(state: ActionState, o: Outcome) {
    && (state.Unknown? || state.Confirmed? || state.Failed?)
    && (state.Confirmed? ==> Present(o.providerReference) && Present(o.resultSha))
    && (state.Failed? ==> Present(o.failureCode))
    && (!state.Confirmed? ==> o.resultSha.None?)
  }

  /** The table's CHECK constraints, then the record's own validation. */
  function RowAccepts(state: ActionState, o: Outcome): Result<()> {
    if (o.resultSha.Some? && !IsSha256(o.resultSha.value)) || (state.Unknown? && o.failureCode.Some?) then Err(Database)
    else if (o.providerReference.Some? && !IsIdentifier(o.providerReference.value))
            || (o.failureCode.Some? && !IsIdentifier(o.failureCode.value)) then Err(Validation)
    else Ok(())
  }

  function MarkResult(b: Books, actionId: string, claim: Claim, state: ActionState, o: Outcome)
    : (Books, Result<Action>)
  {
    var k := ActionKey(claim.tenantId, actionId);
    if !ResultArgumentsOk(state, o) then (b, Err(InvalidInput))
    else
      match Locked(b, actionId, claim)
      case Err(code) => (b, Err(code))
      case Ok(a) =>
        if a.state == state then (if a.outcome == o then (b, Ok(a)) else (b, Err(Conflict)))
        else if state !in ActionSuccessors(a.state) then (b, Err(Conflict))
        else if RowAccepts(state, o).Err? then (b, Err(RowAccepts(state, o).code))
        else
          var row := a.(state := state, outcome := o, fencingToken := Some(claim.fencingToken));
          (Update(b, k, row), Ok(row))
  }

  datatype Receipt = Receipt(actionId: string, providerKey: Option<string>, state: ActionState, outcome: Outcome)

  function MarkReceipt(b: Books, receipt: Receipt, claim: Claim): (Books, Result<Action>) {
    match Locked(b, receipt.actionId, claim)
    case Err(code) => (b, Err(code))
    case Ok(a) =>
      if receipt.providerKey != a.params.providerKey then (b, Err(Conflict))
      else MarkResult(b, receipt.actionId, claim, receipt.state, receipt.outcome)
  }

  // ---------------------------------------------------------------- the repository

  class ActionRepository {
    var now: int
    var cases: map<CaseKey, int>
    var runs: map<RunKey, Run>
    var actions: map<ActionKey, Action>
    var approvals: map<ApprovalKey, Approval>
    var waits: map<WaitKey, Wait>

    constructor (now: int)
      ensures View() == Books(Table(now, map[], map[]), map[], map[], map[])
    {
      this.now := now;
      cases, runs, actions, approvals, waits := map[], map[], map[], map[], map[];
    }

    function View(): Books
      reads this
    {
      Books(Table(now, cases, runs), actions, approvals, waits)
    }

    /** `fetched` is what the locking select returns after a refused insert: the rows sharing
        a key with the intent, in no particular order. */
    method Reserve(intent: Intent, claim: Option<Claim>, fetched: seq<ActionKey>) returns (r: Result<Reservation>)
      requires forall k :: k in fetched <==> k in actions && SharesKey(k, actions[k], intent)
      modifies this`actions
      ensures Reserves(old(View()), intent, claim, View(), r)
    {
      if claim.Some? {
        if (intent.tenantId, intent.caseId) != (claim.value.tenantId, claim.value.caseId) {
          return Err(Forbidden);
        }
        var valid := ClaimValid(View().table, claim.value);
        if valid.Err? {
          return Err(valid.code);
        }
      }
      if !Taken(actions, intent) {
        if CaseKey(intent.tenantId, intent.caseId) !in cases {
          return Err(Database);
        }
        actions := actions[intent.Key() := Fresh(intent)];
        return Ok(Reservation(intent.Key(), Fresh(intent), false));
      }
      r := AnswerConflict(fetched, intent);
    }

    /** The three scans over the candidate rows, in whatever order they came. */
    method AnswerConflict(rows: seq<ActionKey>, intent: Intent) returns (r: Result<Reservation>)
      requires forall k :: k in rows <==> k in actions && SharesKey(k, actions[k], intent)
      ensures ConflictAnswer(actions, intent, r)
    {
      for i := 0 to |rows|
        invariant forall j :: 0 <= j < i ==> actions[rows[j]].idempotencyKey != intent.idempotencyKey
      {
        var k := rows[i];
        if actions[k].idempotencyKey == intent.idempotencyKey {
          assert HasIdempotencyKey(actions, intent.tenantId, intent.idempotencyKey, k);
          if k.actionId != intent.actionId || actions[k].params != intent.params {
            return Err(Conflict);
          }
          return Ok(Reservation(k, actions[k], true));
        }
      }
      for i := 0 to |rows|
        invariant forall j :: 0 <= j < i ==>
                                rows[j].actionId != intent.actionId || actions[rows[j]].params == intent.params
      {
        var k := rows[i];
        if k.actionId == intent.actionId && actions[k].params != intent.params {
          return Err(Conflict);
        }
      }
      for i := 0 to |rows|
        invariant forall j :: 0 <= j < i ==> actions[rows[j]].params.businessKey != intent.params.businessKey
      {
        var k := rows[i];
        if actions[k].params.businessKey == intent.params.businessKey {
          assert HasBusinessKey(actions, intent.tenantId, intent.params.businessKey, k);
          if actions[k].params != intent.params {
            return Err(Conflict);
          }
          return Ok(Reservation(k, actions[k], true));
        }
      }
      return Err(Conflict);
    }

    method Dispatch(actionId: string, claim: Claim, approvalId: Option<string>, policy: Option<string>)
      returns (r: Result<Action>)
      modifies this`actions
      ensures (View(), r) == MarkRequested(old(View()), actionId, claim, approvalId, policy)
    {
      var locked := Locked(View(), actionId, claim);
      if locked.Err? {
        return Err(locked.code);
      }
      var k, current := ActionKey(claim.tenantId, actionId), locked.value;
      if current.state != Reserved {
        return Ok(current);
      }
      if current.params.approvalRequired {
        if approvalId.None? {
          return Err(Forbidden);
        }
        if policy.None? {
          return Err(InvalidInput);
        }
        var approval := ApprovalKey(claim.tenantId, approvalId.value);
        if approval !in approvals {
          return Err(Forbidden);
        }
        var usable := Approvals.AssertUsable(approval, approvals[approval], k, current.caseId,
                                             current.params.parametersSha, policy.value, now);
        if usable.Err? {
          return Err(usable.code);
        }
      } else if approvalId.Some? {
        return Err(InvalidInput);
      }
      r := UpdateState(k, Requested, NO_OUTCOME, claim);
    }

    method Settle(actionId: string, claim: Claim, state: ActionState, o: Outcome) returns (r: Result<Action>)
      modifies this`actions
      ensures (View(), r) == MarkResult(old(View()), actionId, claim, state, o)
    {
      if !(state.Unknown? || state.Confirmed? || state.Failed?) {
        return Err(InvalidInput);
      }
      if state.Confirmed? && (!Present(o.providerReference) || !Present(o.resultSha)) {
        return Err(InvalidInput);
      }
      if state.Failed? && !Present(o.failureCode) {
        return Err(InvalidInput);
      }
      if !state.Confirmed? && o.resultSha.Some? {
        return Err(InvalidInput);
      }
      var locked := Locked(View(), actionId, claim);
      if locked.Err? {
        return Err(locked.code);
      }
      var current := locked.value;
      if current.state == state {
        return if current.outcome == o then Ok(current) else Err(Conflict);
      }
      if state !in ActionSuccessors(current.state) {
        return Err(Conflict);
      }
      r := UpdateState(ActionKey(claim.tenantId, actionId), state, o, claim);
    }

    method UpdateState(k: ActionKey, state: ActionState, o: Outcome, claim: Claim) returns (r: Result<Action>)
      requires k in actions
      modifies this`actions
      ensures RowAccepts(state, o).Err? ==> View() == old(View()) && r == Err(RowAccepts(state, o).code)
      ensures RowAccepts(state, o).Ok? ==>
                var row := old(actions)[k].(state := state, outcome := o, fencingToken := Some(claim.fencingToken));
                View() == Update(old(View()), k, row) && r == Ok(row)
    {
      var accepted := RowAccepts(state, o);
      if accepted.Err? {
        return Err(accepted.code);
      }
      actions := actions[k := actions[k].(state := state, outcome := o, fencingToken := Some(claim.fencingToken))];
      return Ok(actions[k]);
    }

    method SettleByReceipt(receipt: Receipt, claim: Claim) returns (r: Result<Action>)
      modifies this`actions
      ensures (View(), r) == MarkReceipt(old(View()), receipt, claim)
    {
      var locked := Locked(View(), receipt.actionId, claim);
      if locked.Err? {
        return Err(locked.code);
      }
      if receipt.providerKey != locked.value.params.providerKey {
        return Err(Conflict);
      }
      r := Settle(receipt.actionId, claim, receipt.state, receipt.outcome);
    }
  }
}
