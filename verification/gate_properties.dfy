/** One obligation per key, and no dispatch without a frozen approval, over every history of
    the action ledger and the approval gate. */
module GateProperties {
  import opened Common
  import opened Runtime
  import opened Runs
  import Fencing
  import opened Ledger
  import opened Approvals
  import opened Actions

  // ---------------------------------------------------------------- histories

  datatype Op =
    | RunOp(op: Fencing.Op)
    | Reserve(intent: Intent, holder: Option<Claim>, answer: Result<Reservation>)
    | Dispatch(actionId: string, claim: Claim, approvalId: Option<string>, policy: Option<string>)
    | Settle(actionId: string, claim: Claim, state: ActionState, outcome: Outcome)
    | SettleByReceipt(receipt: Receipt, claim: Claim)
    | Submit(key: ApprovalKey, request: Request)
    | Rule(key: ApprovalKey, verdict: Verdict)
    | Lapse(key: ApprovalKey)
    | SetWait(waitKey: WaitKey, wait: Wait)

  ghost predicate StepsTo(b: Books, op: Op, b': Books) {
    match op
    case RunOp(o) => Fencing.Enabled(b.table, o) && b' == b.(table := Fencing.Step(b.table, o))
    case Reserve(intent, holder, answer) => Reserves(b, intent, holder, b', answer)
    case Dispatch(id, claim, approvalId, policy) => b' == MarkRequested(b, id, claim, approvalId, policy).0
    case Settle(id, claim, state, o) => b' == MarkResult(b, id, claim, state, o).0
    case SettleByReceipt(receipt, claim) => b' == MarkReceipt(b, receipt, claim).0
    case Submit(k, r) => b' == RequestApproval(b, k, r).0
    case Rule(k, v) => b' == Decide(b, k, v).0
    case Lapse(k) => b' == Expire(b, k).0
    case SetWait(k, w) => b' == b.(waits := b.waits[k := w])
  }

  ghost predicate History(bs: seq<Books>, ops: seq<Op>) {
    && |bs| == |ops| + 1
    && forall i {:trigger ops[i]} :: 0 <= i < |ops| ==> StepsTo(bs[i], ops[i], bs[i + 1])
  }

  // ---------------------------------------------------------------- invariant

  /** The ledger's CHECK constraints. */
  ghost predicate RowShape(a: Action) {
    && (a.state.Confirmed? <==> a.outcome.providerReference.Some? && a.outcome.resultSha.Some?)
    && (a.state.Failed? ==> a.outcome.failureCode.Some?)
    && (a.state.Reserved? || a.state.Requested? || a.state.Unknown? ==> a.outcome.failureCode.None?)
  }

  predicate PastGate(s: ActionState) { s.Requested? || s.Unknown? || s.Confirmed? }

  /** `p` is an approval of exactly this obligation, granted by someone other than its requester. */
  ghost predicate Authorises(b: Books, k: ActionKey, p: ApprovalKey) {
    && k in b.actions && p in b.approvals && p.tenantId == k.tenantId
    && (var a, row := b.actions[k], b.approvals[p];
        && row.request.caseId == a.caseId && row.request.actionId == k.actionId
        && row.request.parametersSha == a.params.parametersSha
        && row.decision.Approved? && row.approver.Some? && row.approver.value != row.request.requestedBy)
  }

  ghost predicate Gated(b: Books, k: ActionKey)
    requires k in b.actions
  {
    b.actions[k].params.approvalRequired && PastGate(b.actions[k].state) ==> exists p :: Authorises(b, k, p)
  }

  ghost predicate ActionsSound(b: Books) {
    forall k :: k in b.actions ==> RowShape(b.actions[k]) && Gated(b, k)
  }

  /** The record's `coherent_decision`, and four eyes on every approval. */
  ghost predicate ApprovalShape(p: Approval) {
    && (p.decision.Pending? <==> p.approver.None?) && (p.decision.Pending? <==> p.decisionKey.None?)
    && (p.decision.Approved? || p.decision.Rejected? ==> p.approver != Some(p.request.requestedBy))
  }

  ghost predicate SameAction(b: Books, p: ApprovalKey, q: ApprovalKey)
    requires p in b.approvals && q in b.approvals
  {
    p.tenantId == q.tenantId && b.approvals[p].request.actionId == b.approvals[q].request.actionId
  }

  ghost predicate ApprovalsSound(b: Books) {
    && (forall p :: p in b.approvals ==>
          ApprovalShape(b.approvals[p]) && ActionMatches(b, p.tenantId, b.approvals[p].request).Ok?)
    && (forall p, q :: p in b.approvals && q in b.approvals && SameAction(b, p, q) ==> p == q)
  }

  ghost predicate Sound(b: Books) { KeysUnique(b.actions) && ActionsSound(b) && ApprovalsSound(b) }

  lemma EmptyLedgerIsSound(t: Table, waits: map<WaitKey, Wait>)
    ensures Sound(Books(t, map[], map[], waits))
  {
  }

  // ---------------------------------------------------------------- what a step may change

  ghost predicate ActionAdvances(a: Action, a': Action) {
    && a'.caseId == a.caseId && a'.idempotencyKey == a.idempotencyKey && a'.params == a.params
    && (a' == a || a'.state in ActionSuccessors(a.state))
  }

  ghost predicate ApprovalAdvances(p: Approval, p': Approval) {
    p'.request == p.request && (p.decision.Pending? || p' == p)
  }

  ghost predicate Advances(b: Books, b': Books) {
    && (forall k :: k in b.actions ==> k in b'.actions && ActionAdvances(b.actions[k], b'.actions[k]))
    && (forall p :: p in b.approvals ==> p in b'.approvals && ApprovalAdvances(b.approvals[p], b'.approvals[p]))
  }

  /** An approval, once granted for a dispatched obligation, keeps authorising it. */
  lemma AuthorisesForward(b: Books, b': Books, k: ActionKey, p: ApprovalKey)
    requires Advances(b, b') && Authorises(b, k, p)
    ensures Authorises(b', k, p) && b'.approvals[p] == b.approvals[p]
  {
  }

  /** Changing rows only forward, with every changed action gated, keeps the action half. */
  lemma ForwardKeepsActions(b: Books, b': Books, touched: set<ActionKey>)
    requires ActionsSound(b) && Advances(b, b')
    requires forall k :: k in b'.actions && k !in touched ==> k in b.actions && b'.actions[k] == b.actions[k]
    requires forall k :: k in b'.actions && k in touched ==> RowShape(b'.actions[k]) && Gated(b', k)
    ensures ActionsSound(b')
  {
    forall k | && k in b'.actions && k !in touched
               && b'.actions[k].params.approvalRequired && PastGate(b'.actions[k].state)
      ensures exists p :: Authorises(b', k, p)
    {
      assert Gated(b, k);
      var p :| Authorises(b, k, p);
      AuthorisesForward(b, b', k, p);
    }
  }

  // ---------------------------------------------------------------- one action row

  ghost predicate RewritesAction(b: Books, b': Books, k: ActionKey) {
    && k in b.actions && k in b'.actions && b' == Update(b, k, b'.actions[k])
    && ActionAdvances(b.actions[k], b'.actions[k]) && RowShape(b'.actions[k]) && Gated(b', k)
  }

  lemma KeysStayUnique(actions: map<ActionKey, Action>, k: ActionKey, a: Action)
    requires KeysUnique(actions)
    requires k in actions ==> a.idempotencyKey == actions[k].idempotencyKey && a.params == actions[k].params
    requires forall j :: j in actions && j != k && j.tenantId == k.tenantId
               ==> && actions[j].params.businessKey != a.params.businessKey
                   && actions[j].idempotencyKey != a.idempotencyKey
    ensures KeysUnique(actions[k := a])
  {
  }

  lemma ApprovalsStayBound(b: Books, b': Books)
    requires ApprovalsSound(b) && b'.approvals == b.approvals
    requires forall k :: k in b.actions ==> k in b'.actions && ActionAdvances(b.actions[k], b'.actions[k])
    ensures ApprovalsSound(b')
  {
    forall p | p in b'.approvals ensures ActionMatches(b', p.tenantId, b'.approvals[p].request).Ok? {
      assert ActionMatches(b, p.tenantId, b.approvals[p].request).Ok?;
    }
    forall p, q | p in b'.approvals && q in b'.approvals && SameAction(b', p, q) ensures p == q {
      assert SameAction(b, p, q);
    }
  }

  lemma RewriteKeepsSound(b: Books, b': Books, k: ActionKey)
    requires Sound(b) && RewritesAction(b, b', k)
    ensures Sound(b') && Advances(b, b')
  {
    RewriteAdvances(b, b', k);
    KeysStayUnique(b.actions, k, b'.actions[k]);
    ApprovalsStayBound(b, b');
    ForwardKeepsActions(b, b', {k});
  }

  lemma RewriteAdvances(b: Books, b': Books, k: ActionKey)
    requires RewritesAction(b, b', k)
    ensures Advances(b, b')
  {
  }

  /** The dispatch gate lets an approval-required action through only with its approval. */
  lemma DispatchIsGated(b: Books, id: string, claim: Claim, approvalId: Option<string>, policy: Option<string>)
    requires Sound(b)
    ensures var b', k := MarkRequested(b, id, claim, approvalId, policy).0, ActionKey(claim.tenantId, id);
            b' == b || RewritesAction(b, b', k)
  {
    var b', k := MarkRequested(b, id, claim, approvalId, policy).0, ActionKey(claim.tenantId, id);
    if b' != b && b.actions[k].params.approvalRequired {
      assert Authorises(b', k, ApprovalKey(claim.tenantId, approvalId.value));
    }
  }

  lemma ResultStaysGated(b: Books, id: string, claim: Claim, state: ActionState, o: Outcome)
    requires Sound(b)
    ensures var b', k := MarkResult(b, id, claim, state, o).0, ActionKey(claim.tenantId, id);
            b' == b || RewritesAction(b, b', k)
  {
    var b', k := MarkResult(b, id, claim, state, o).0, ActionKey(claim.tenantId, id);
    if b' != b && b.actions[k].params.approvalRequired && PastGate(state) {
      assert Gated(b, k);
      var p :| Authorises(b, k, p);
      assert Authorises(b', k, p);
    }
  }

  lemma InsertKeepsSound(b: Books, intent: Intent)
    requires Sound(b) && !Taken(b.actions, intent)
    ensures var b' := Update(b, intent.Key(), Fresh(intent)); Sound(b') && Advances(b, b')
  {
    var b' := Update(b, intent.Key(), Fresh(intent));
    forall k | k in b.actions ensures k != intent.Key() && !SharesKey(k, b.actions[k], intent) {
    }
    InsertAdvances(b, intent.Key(), Fresh(intent));
    KeysStayUnique(b.actions, intent.Key(), Fresh(intent));
    ApprovalsStayBound(b, b');
    ForwardKeepsActions(b, b', {intent.Key()});
  }

  lemma InsertAdvances(b: Books, k: ActionKey, a: Action)
    requires k !in b.actions
    ensures Advances(b, Update(b, k, a))
  {
  }

  lemma ReserveKeepsSound(b: Books, intent: Intent, holder: Option<Claim>, b': Books, r: Result<Reservation>)
    requires Sound(b) && Reserves(b, intent, holder, b', r)
    ensures Sound(b') && Advances(b, b')
  {
    if b' != b {
      InsertKeepsSound(b, intent);
    }
  }

  // ---------------------------------------------------------------- one approval row

  ghost predicate RewritesApproval(b: Books, b': Books, k: ApprovalKey) {
    && b'.actions == b.actions && k in b'.approvals && b'.approvals == b.approvals[k := b'.approvals[k]]
    && ApprovalShape(b'.approvals[k])
    && (if k in b.approvals then ApprovalAdvances(b.approvals[k], b'.approvals[k])
        else ActionMatches(b, k.tenantId, b'.approvals[k].request).Ok?
             && !HasApproval(b.approvals, ActionKey(k.tenantId, b'.approvals[k].request.actionId)))
  }

  lemma ApprovalWriteAdvances(b: Books, b': Books, k: ApprovalKey)
    requires RewritesApproval(b, b', k)
    ensures Advances(b, b')
  {
  }

  lemma ApprovalWriteKeepsApprovals(b: Books, b': Books, k: ApprovalKey)
    requires ApprovalsSound(b) && RewritesApproval(b, b', k)
    ensures ApprovalsSound(b')
  {
    forall p | p in b'.approvals ensures ActionMatches(b', p.tenantId, b'.approvals[p].request).Ok? {
      assert p in b.approvals ==> ActionMatches(b, p.tenantId, b.approvals[p].request).Ok?;
    }
    forall p, q | p in b'.approvals && q in b'.approvals && SameAction(b', p, q) ensures p == q {
      assert p in b.approvals && q in b.approvals ==> SameAction(b, p, q);
    }
  }

  lemma ApprovalWriteKeepsSound(b: Books, b': Books, k: ApprovalKey)
    requires Sound(b) && RewritesApproval(b, b', k)
    ensures Sound(b') && Advances(b, b')
  {
    ApprovalWriteAdvances(b, b', k);
    ApprovalWriteKeepsApprovals(b, b', k);
    ForwardKeepsActions(b, b', {});
  }

  lemma SubmitWritesOne(b: Books, k: ApprovalKey, r: Request)
    requires k in b.approvals ==> ApprovalShape(b.approvals[k])
    ensures var b' := RequestApproval(b, k, r).0; b' == b || RewritesApproval(b, b', k)
  {
  }

  lemma SignalWritesNeither(b: Books, tenantId: string, r: Request)
    requires r.binding.Some? && WaitKey(tenantId, r.caseId, r.binding.value) in b.waits
    ensures SignalWait(b, tenantId, r).actions == b.actions && SignalWait(b, tenantId, r).approvals == b.approvals
  {
  }

  lemma RuleWritesOne(b: Books, k: ApprovalKey, v: Verdict)
    requires k in b.approvals ==> ApprovalShape(b.approvals[k])
    ensures var b' := Decide(b, k, v).0; b' == b || RewritesApproval(b, b', k)
  {
    var b' := Decide(b, k, v).0;
    if b' != b {
      var p := b.approvals[k];
      var ruled := b.(approvals := b.approvals[k := Decided(p, v)]);
      if p.request.binding.Some? {
        SignalWritesNeither(ruled, k.tenantId, p.request);
      }
      assert b'.actions == b.actions && b'.approvals == ruled.approvals;
    }
  }

  lemma LapseWritesOne(b: Books, k: ApprovalKey)
    requires k in b.approvals ==> ApprovalShape(b.approvals[k])
    ensures var b' := Expire(b, k).0; b' == b || RewritesApproval(b, b', k)
  {
  }

  // ---------------------------------------------------------------- every step

  lemma DispatchKeepsSound(b: Books, id: string, claim: Claim, approvalId: Option<string>, policy: Option<string>)
    requires Sound(b)
    ensures var b' := MarkRequested(b, id, claim, approvalId, policy).0; Sound(b') && Advances(b, b')
  {
    DispatchIsGated(b, id, claim, approvalId, policy);
    var b' := MarkRequested(b, id, claim, approvalId, policy).0;
    if b' != b {
      RewriteKeepsSound(b, b', ActionKey(claim.tenantId, id));
    }
  }

  lemma SettleKeepsSound(b: Books, id: string, claim: Claim, state: ActionState, o: Outcome)
    requires Sound(b)
    ensures var b' := MarkResult(b, id, claim, state, o).0; Sound(b') && Advances(b, b')
  {
    ResultStaysGated(b, id, claim, state, o);
    var b' := MarkResult(b, id, claim, state, o).0;
    if b' != b {
      RewriteKeepsSound(b, b', ActionKey(claim.tenantId, id));
    }
  }

  lemma ReceiptIsResult(b: Books, receipt: Receipt, claim: Claim)
    ensures var b' := MarkReceipt(b, receipt, claim).0;
            b' == b || b' == MarkResult(b, receipt.actionId, claim, receipt.state, receipt.outcome).0
  {
  }

  lemma ReceiptKeepsSound(b: Books, receipt: Receipt, claim: Claim)
    requires Sound(b)
    ensures var b' := MarkReceipt(b, receipt, claim).0; Sound(b') && Advances(b, b')
  {
    ReceiptIsResult(b, receipt, claim);
    if MarkReceipt(b, receipt, claim).0 != b {
      SettleKeepsSound(b, receipt.actionId, claim, receipt.state, receipt.outcome);
    }
  }

  lemma ApprovalOpKeepsSound(b: Books, b': Books, k: ApprovalKey)
    requires Sound(b) && (b' == b || RewritesApproval(b, b', k))
    ensures Sound(b') && Advances(b, b')
  {
    if b' != b {
      ApprovalWriteKeepsSound(b, b', k);
    }
  }

  lemma OtherRowsKeepSound(b: Books, b': Books)
    requires Sound(b) && b'.actions == b.actions && b'.approvals == b.approvals
    ensures Sound(b') && Advances(b, b')
  {
    ForwardKeepsActions(b, b', {});
    ApprovalsStayBound(b, b');
  }

  lemma ActionStepKeepsSound(b: Books, op: Op, b': Books)
    requires Sound(b) && StepsTo(b, op, b') && (op.Reserve? || op.Dispatch? || op.Settle? || op.SettleByReceipt?)
    ensures Sound(b') && Advances(b, b')
  {
    match op
    case Reserve(intent, holder, answer) => ReserveKeepsSound(b, intent, holder, b', answer);
    case Dispatch(id, claim, approvalId, policy) => DispatchKeepsSound(b, id, claim, approvalId, policy);
    case Settle(id, claim, state, o) => SettleKeepsSound(b, id, claim, state, o);
    case SettleByReceipt(receipt, claim) => ReceiptKeepsSound(b, receipt, claim);
  }

  lemma ApprovalStepWritesOne(b: Books, op: Op, b': Books)
    requires StepsTo(b, op, b') && (op.Submit? || op.Rule? || op.Lapse?)
    requires op.key in b.approvals ==> ApprovalShape(b.approvals[op.key])
    ensures b' == b || RewritesApproval(b, b', op.key)
  {
    match op
    case Submit(k, r) => SubmitWritesOne(b, k, r);
    case Rule(k, v) => RuleWritesOne(b, k, v);
    case Lapse(k) => LapseWritesOne(b, k);
  }

  lemma StepKeepsSound(b: Books, op: Op, b': Books)
    requires Sound(b) && StepsTo(b, op, b')
    ensures Sound(b') && Advances(b, b')
  {
    if op.RunOp? || op.SetWait? {
      OtherRowsKeepSound(b, b');
    } else if op.Submit? || op.Rule? || op.Lapse? {
      ApprovalStepWritesOne(b, op, b');
      ApprovalOpKeepsSound(b, b', op.key);
    } else {
      ActionStepKeepsSound(b, op, b');
    }
  }

  lemma {:induction false} AlwaysSound(bs: seq<Books>, ops: seq<Op>, n: int)
    requires History(bs, ops) && 0 <= n <= |ops| && Sound(bs[0])
    ensures Sound(bs[n])
  {
    if n != 0 {
      AlwaysSound(bs, ops, n - 1);
      StepKeepsSound(bs[n - 1], ops[n - 1], bs[n]);
    }
  }

  /** Reachability in the transition table. */
  ghost predicate LeadsTo(s: ActionState, s': ActionState) {
    || s == s' || s' in ActionSuccessors(s)
    || (s.Reserved? && (s'.Unknown? || s'.Confirmed?))
  }

  /** What any stretch of history may have done to the rows of its first state. */
  ghost predicate Later(b: Books, b': Books) {
    && (forall k :: k in b.actions ==> k in b'.actions && ActionOutlives(b.actions[k], b'.actions[k]))
    && (forall p :: p in b.approvals ==> p in b'.approvals && ApprovalAdvances(b.approvals[p], b'.approvals[p]))
  }

  ghost predicate ActionOutlives(a: Action, a': Action) {
    && a'.caseId == a.caseId && a'.idempotencyKey == a.idempotencyKey && a'.params == a.params
    && LeadsTo(a.state, a'.state)
    && (a.state.Confirmed? || a.state.Failed? ==> a' == a)
  }

  ghost predicate Linked(bs: seq<Books>, n: int)
    requires 0 < n < |bs|
  {
    Advances(bs[n - 1], bs[n])
  }

  ghost predicate Chain(bs: seq<Books>) {
    forall n :: 0 < n < |bs| ==> Linked(bs, n)
  }

  lemma HistoryIsChain(bs: seq<Books>, ops: seq<Op>)
    requires History(bs, ops) && Sound(bs[0])
    ensures Chain(bs)
  {
    forall n | 0 < n < |bs| ensures Linked(bs, n) {
      AlwaysSound(bs, ops, n - 1);
      StepKeepsSound(bs[n - 1], ops[n - 1], bs[n]);
    }
  }

  lemma {:induction false} ChainOnlyAdvances(bs: seq<Books>, i: int, j: int)
    requires Chain(bs) && 0 <= i <= j < |bs|
    ensures Later(bs[i], bs[j])
    decreases j
  {
    if i < j {
      ChainOnlyAdvances(bs, i, j - 1);
      assert Linked(bs, j);
      LaterThenAdvance(bs[i], bs[j - 1], bs[j]);
    }
  }

  lemma HistoryOnlyAdvances(bs: seq<Books>, ops: seq<Op>, i: int, j: int)
    requires History(bs, ops) && Sound(bs[0]) && 0 <= i <= j <= |ops|
    ensures Later(bs[i], bs[j])
  {
    HistoryIsChain(bs, ops);
    ChainOnlyAdvances(bs, i, j);
  }

  lemma LaterThenAdvance(a: Books, b: Books, c: Books)
    requires Later(a, b) && Advances(b, c)
    ensures Later(a, c)
  {
  }

  // ---------------------------------------------------------------- main results

  /** The approval gate: wherever an approval-required action has left RESERVED other than by
      failing, an approval of that exact obligation stands behind it, and the approval row is
      the same in every later state. */
  lemma GateNeverOpensUnapproved(bs: seq<Books>, ops: seq<Op>, i: int, k: ActionKey) returns (p: ApprovalKey)
    requires History(bs, ops) && Sound(bs[0]) && 0 <= i <= |ops| && k in bs[i].actions
    requires bs[i].actions[k].params.approvalRequired && PastGate(bs[i].actions[k].state)
    ensures Authorises(bs[i], k, p)
    ensures forall j :: i <= j <= |ops| ==>
              p in bs[j].approvals && bs[j].approvals[p] == bs[i].approvals[p] && Authorises(bs[j], k, p)
    ensures forall q :: Authorises(bs[i], k, q) ==> q == p
  {
    AlwaysSound(bs, ops, i);
    assert Gated(bs[i], k);
    p :| Authorises(bs[i], k, p);
    forall j | i <= j <= |ops|
      ensures p in bs[j].approvals && bs[j].approvals[p] == bs[i].approvals[p] && Authorises(bs[j], k, p)
    {
      HistoryOnlyAdvances(bs, ops, i, j);
    }
  }

  /** RESERVED to FAILED needs no approval: the gate is about leaving for the provider. */
  lemma FailingNeedsNoApproval(b: Books, id: string, claim: Claim, code: string)
    requires ClaimValid(b.table, claim).Ok? && IsIdentifier(code)
    requires ActionKey(claim.tenantId, id) in b.actions
    requires b.actions[ActionKey(claim.tenantId, id)].caseId == claim.caseId
    requires b.actions[ActionKey(claim.tenantId, id)].state.Reserved?
    ensures var (b', r) := MarkResult(b, id, claim, Failed, Outcome(None, None, Some(code)));
            r.Ok? && r.value.state.Failed? && b'.approvals == b.approvals
  {
  }

  /** A terminal result never changes, whatever is marked, replayed or decided afterwards. */
  lemma TerminalResultsAreFinal(bs: seq<Books>, ops: seq<Op>, i: int, j: int, k: ActionKey)
    requires History(bs, ops) && Sound(bs[0]) && 0 <= i <= j <= |ops| && k in bs[i].actions
    requires bs[i].actions[k].state.Confirmed? || bs[i].actions[k].state.Failed?
    ensures k in bs[j].actions && bs[j].actions[k] == bs[i].actions[k]
  {
    HistoryOnlyAdvances(bs, ops, i, j);
  }

  /** A successful reserve answers with a stored row that carries the intent's parameters. */
  lemma ReservedRowMatches(b: Books, intent: Intent, holder: Option<Claim>, b': Books, r: Result<Reservation>)
    requires Sound(b) && Reserves(b, intent, holder, b', r) && r.Ok?
    ensures r.value.key in b'.actions && b'.actions[r.value.key] == r.value.action
    ensures r.value.key.tenantId == intent.tenantId && r.value.action.params == intent.params
    ensures r.value.replayed <==> b' == b
  {
    if b' != b {
      assert intent.Key() !in b.actions by {
        if intent.Key() in b.actions { assert SharesKey(intent.Key(), b.actions[intent.Key()], intent); }
      }
    }
  }

  /** One obligation per business key: across a whole history, all successful reserves that
      share it return the same row, with equal financial parameters. */
  lemma OneObligationPerBusinessKey(bs: seq<Books>, ops: seq<Op>, i: int, j: int)
    requires History(bs, ops) && Sound(bs[0]) && 0 <= i < j < |ops|
    requires ops[i].Reserve? && ops[j].Reserve? && ops[i].answer.Ok? && ops[j].answer.Ok?
    requires ops[i].intent.tenantId == ops[j].intent.tenantId
    requires ops[i].intent.params.businessKey == ops[j].intent.params.businessKey
    ensures ops[i].answer.value.key == ops[j].answer.value.key
    ensures ops[i].intent.params == ops[j].intent.params
  {
    AlwaysSound(bs, ops, i);
    AlwaysSound(bs, ops, j);
    AlwaysSound(bs, ops, j + 1);
    ReservedRowMatches(bs[i], ops[i].intent, ops[i].holder, bs[i + 1], ops[i].answer);
    ReservedRowMatches(bs[j], ops[j].intent, ops[j].holder, bs[j + 1], ops[j].answer);
    HistoryOnlyAdvances(bs, ops, i + 1, j + 1);
  }

  /** No other request holds the intent's business key yet: what a caller can check before
      reserving, and all it takes to bind the idempotency key. */
  ghost predicate BindsItsKey(actions: map<ActionKey, Action>, intent: Intent) {
    forall k :: HasBusinessKey(actions, intent.tenantId, intent.params.businessKey, k)
      ==> actions[k].idempotencyKey == intent.idempotencyKey
  }

  ghost predicate IsBound(actions: map<ActionKey, Action>, intent: Intent) {
    exists k :: HasIdempotencyKey(actions, intent.tenantId, intent.idempotencyKey, k)
  }

  lemma ReturnedRowCarriesKeyIff(b: Books, intent: Intent, holder: Option<Claim>, b': Books, r: Result<Reservation>)
    requires Sound(b) && Reserves(b, intent, holder, b', r) && r.Ok?
    ensures IsBound(b'.actions, intent) <==> r.value.action.idempotencyKey == intent.idempotencyKey
  {
    ReservedRowMatches(b, intent, holder, b', r);
    if r.value.action.idempotencyKey == intent.idempotencyKey {
      assert HasIdempotencyKey(b'.actions, intent.tenantId, intent.idempotencyKey, r.value.key);
    }
  }

  /** A successful reserve binds the caller's idempotency key to a row exactly when no row with
      another idempotency key holds the business key before the call. */
  lemma KeyIsBoundIff(b: Books, intent: Intent, holder: Option<Claim>, b': Books, r: Result<Reservation>)
    requires Sound(b) && Reserves(b, intent, holder, b', r) && r.Ok?
    ensures IsBound(b'.actions, intent) <==> BindsItsKey(b.actions, intent)
    ensures r.value.action.idempotencyKey == intent.idempotencyKey <==> BindsItsKey(b.actions, intent)
  {
    ReservedRowMatches(b, intent, holder, b', r);
    ReturnedRowCarriesKeyIff(b, intent, holder, b', r);
    if b' == b {
      assert HasBusinessKey(b.actions, intent.tenantId, intent.params.businessKey, r.value.key);
    } else {
      assert !Taken(b.actions, intent);
      forall k | HasBusinessKey(b.actions, intent.tenantId, intent.params.businessKey, k) ensures false {
        assert SharesKey(k, b.actions[k], intent);
      }
    }
  }

  lemma BoundKeyAnswers(b: Books, intent: Intent, holder: Option<Claim>, b': Books, r: Result<Reservation>,
      k: ActionKey)
    requires KeysUnique(b.actions) && Reserves(b, intent, holder, b', r) && r.Ok?
    requires HasIdempotencyKey(b.actions, intent.tenantId, intent.idempotencyKey, k)
    ensures r.value.key == k == intent.Key() && r.value.action == b.actions[k] && r.value.action.params == intent.params
  {
  }

  /** A bound idempotency key names one request for ever. */
  lemma OneRequestPerBoundKey(bs: seq<Books>, ops: seq<Op>, i: int, j: int)
    requires History(bs, ops) && Sound(bs[0]) && 0 <= i < j < |ops|
    requires ops[i].Reserve? && ops[j].Reserve? && ops[i].answer.Ok? && ops[j].answer.Ok?
    requires ops[i].intent.tenantId == ops[j].intent.tenantId
    requires ops[i].intent.idempotencyKey == ops[j].intent.idempotencyKey
    requires BindsItsKey(bs[i].actions, ops[i].intent)
    ensures ops[j].answer.value.key == ops[i].answer.value.key == ops[j].intent.Key()
    ensures ops[i].intent.params == ops[j].intent.params
  {
    var k := ops[i].answer.value.key;
    AlwaysSound(bs, ops, i);
    AlwaysSound(bs, ops, j);
    ReservedRowMatches(bs[i], ops[i].intent, ops[i].holder, bs[i + 1], ops[i].answer);
    KeyIsBoundIff(bs[i], ops[i].intent, ops[i].holder, bs[i + 1], ops[i].answer);
    HistoryOnlyAdvances(bs, ops, i + 1, j);
    BoundKeyAnswers(bs[j], ops[j].intent, ops[j].holder, bs[j + 1], ops[j].answer, k);
  }

  /** An unbound one does not: after a deduplicated reserve, the same key reserves any
      obligation whose action id and business key are free. */
  lemma UnboundKeyNamesAnother(b: Books, first: Intent, r: Result<Reservation>, second: Intent)
    requires Sound(b) && Reserves(b, first, None, b, r) && r.Ok? && !BindsItsKey(b.actions, first)
    requires second.tenantId == first.tenantId && second.idempotencyKey == first.idempotencyKey
    requires second.Key() !in b.actions && CaseKey(second.tenantId, second.caseId) in b.table.cases
    requires forall k :: !HasBusinessKey(b.actions, second.tenantId, second.params.businessKey, k)
    ensures var b' := b.(actions := b.actions[second.Key() := Fresh(second)]);
            && Reserves(b, second, None, b', Ok(Reservation(second.Key(), Fresh(second), false)))
            && second.Key() != r.value.key
  {
    KeyIsBoundIff(b, first, None, b, r);
    ReservedRowMatches(b, first, None, b, r);
    forall k | k in b.actions ensures !SharesKey(k, b.actions[k], second) {
      assert !HasBusinessKey(b.actions, second.tenantId, second.params.businessKey, k);
      assert !HasIdempotencyKey(b.actions, first.tenantId, first.idempotencyKey, k);
    }
  }

  /** The last refusal of `reserve` is never reached: a clash that is neither on the
      idempotency key nor a changed action id is always on the business key. */
  lemma ClashIsAlwaysNamed(actions: map<ActionKey, Action>, intent: Intent)
    requires Taken(actions, intent)
    ensures || (exists k :: HasIdempotencyKey(actions, intent.tenantId, intent.idempotencyKey, k))
            || (intent.Key() in actions && actions[intent.Key()].params != intent.params)
            || (exists k :: HasBusinessKey(actions, intent.tenantId, intent.params.businessKey, k))
  {
    var k :| k in actions && SharesKey(k, actions[k], intent);
    assert HasIdempotencyKey(actions, intent.tenantId, intent.idempotencyKey, k)
        || HasBusinessKey(actions, intent.tenantId, intent.params.businessKey, k) || k == intent.Key();
  }

  // ---------------------------------------------------------------- stale claims

  /** The claim a step hands out, if any. */
  ghost function IssuedBy(b: Books, op: Op): Option<Claim> {
    if op.RunOp? && Fencing.Enabled(b.table, op.op) then Fencing.Issued(b.table, op.op) else None
  }

  /** The run table moves by a run operation, by the wake-up of a settled wait, or not at all. */
  lemma DecideOnTable(b: Books, k: ApprovalKey, v: Verdict)
    ensures var t := Decide(b, k, v).0.table;
            || t == b.table
            || exists run, caseId, waitId, generation :: t == SettleWait(b.table, run, caseId, waitId, generation)
  {
  }

  lemma StepOnTable(b: Books, op: Op, b': Books) returns (settle: Fencing.Op)
    requires StepsTo(b, op, b')
    ensures Fencing.Enabled(b.table, settle)
    ensures b'.table == b.table || b'.table == Fencing.Step(b.table, settle)
  {
    settle := Fencing.Tick(0);
    if op.RunOp? {
      settle := op.op;
    } else if op.Rule? {
      DecideOnTable(b, op.key, op.verdict);
      if b'.table != b.table {
        var run, caseId, waitId, generation :| b'.table == SettleWait(b.table, run, caseId, waitId, generation);
        settle := Fencing.Settle(run, caseId, waitId, generation);
      }
    } else {
      OtherOpsKeepTable(b, op, b');
    }
  }

  lemma OtherOpsKeepTable(b: Books, op: Op, b': Books)
    requires StepsTo(b, op, b') && !op.RunOp? && !op.Rule?
    ensures b'.table == b.table
  {
  }

  ghost function Tables(bs: seq<Books>): seq<Table> { seq(|bs|, i requires 0 <= i < |bs| => bs[i].table) }

  lemma StepFollows(b: Books, op: Op, b': Books)
    requires StepsTo(b, op, b')
    ensures Fencing.Follows(b.table, b'.table)
  {
    var settle := StepOnTable(b, op, b');
    Fencing.StepFollows(b.table, settle);
  }

  lemma TablesFollow(bs: seq<Books>, ops: seq<Op>)
    requires History(bs, ops)
    ensures Fencing.Chain(Tables(bs))
  {
    forall n | 0 < n < |Tables(bs)| ensures Fencing.Linked(Tables(bs), n) {
      StepFollows(bs[n - 1], ops[n - 1], bs[n]);
    }
  }

  /** `stale` can neither reserve under its name nor mark any action of the ledger. */
  ghost predicate CannotMark(b: Books, stale: Claim) {
    && (forall id, p, v :: MarkRequested(b, id, stale, p, v).0 == b && MarkRequested(b, id, stale, p, v).1.Err?)
    && (forall id, s, o :: MarkResult(b, id, stale, s, o).0 == b && MarkResult(b, id, stale, s, o).1.Err?)
    && (forall receipt :: MarkReceipt(b, receipt, stale).0 == b && MarkReceipt(b, receipt, stale).1.Err?)
    && (forall intent, b', r :: Reserves(b, intent, Some(stale), b', r) ==> b' == b && r.Err?)
  }

  lemma StaleClaimMarksNothing(b: Books, claim: Claim)
    requires !HoldsRight(b.table, claim)
    ensures CannotMark(b, claim)
  {
  }

  /** From the moment a newer claim on the run is issued, and for ever, no reserve and no mark
      under the older one has any effect on the ledger. */
  lemma NewerClaimFencesLedger(bs: seq<Books>, ops: seq<Op>, i: int, j: int, n: int)
    requires History(bs, ops) && 0 <= i < j < n <= |ops|
    requires IssuedBy(bs[i], ops[i]).Some? && IssuedBy(bs[j], ops[j]).Some?
    requires IssuedBy(bs[i], ops[i]).value.Key() == IssuedBy(bs[j], ops[j]).value.Key()
    ensures CannotMark(bs[n], IssuedBy(bs[i], ops[i]).value)
  {
    TablesFollow(bs, ops);
    Fencing.ChainSupersedes(Tables(bs), i, ops[i].op, j, ops[j].op, n);
    var stale := IssuedBy(bs[i], ops[i]).value;
    Fencing.SupersededHasNoRight(bs[n].table, stale);
    StaleClaimMarksNothing(bs[n], stale);
  }

  /** A decision on an active wait wakes exactly the run that waits for it. */
  lemma DecisionWakesRun(b: Books, k: ApprovalKey, v: Verdict)
    requires Decide(b, k, v).1.Ok? && b.approvals[k].decision.Pending? && b.approvals[k].request.binding.Some?
    ensures var b', w := Decide(b, k, v).0, b.approvals[k].request.binding.value;
            var wait, run := WaitKey(k.tenantId, b.approvals[k].request.caseId, w), RunKey(k.tenantId, w.runId);
            && wait in b.waits && run in b.table.runs && b.table.runs[run].state.WaitingApproval?
            && b'.table.runs - {run} == b.table.runs - {run}
            && (if b.waits[wait].state.WaitActive?
                then b'.table.runs[run].state.Ready? && b'.waits[wait].state.Satisfied?
                else b'.table == b.table && b'.waits[wait].replied)
  {
  }
}
