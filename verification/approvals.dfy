/** The approval gate: one immutable request per action, decided once by someone else. */
module Approvals {
  import opened Common
  import opened Runtime
  import opened Runs
  import opened Ledger

  /** `assert_approval_usable`, on the row stored under `k`. */
  function AssertUsable(k: ApprovalKey, a: Approval, action: ActionKey, caseId: string, sha: string, policy: string,
      now: int)
    : Result<()>
  {
    if k.tenantId != action.tenantId || a.request.caseId != caseId || a.request.actionId != action.actionId
    then Err(Forbidden)
    else if a.request.parametersSha != sha then Err(Conflict)
    else if a.request.policyVersion != policy then Err(Conflict)
    else if !a.decision.Approved? then Err(Forbidden)
    else if now >= a.request.expiresAt then Err(Forbidden)
    else Ok(())
  }

  /** `_lock_run_wait`: the run waits for exactly this approval. */
  function WaitIsBound(b: Books, tenantId: string, approvalId: string, r: Request): Result<()>
    requires r.binding.Some?
  {
    var w := r.binding.value;
    var run, wait := RunKey(tenantId, w.runId), WaitKey(tenantId, r.caseId, w);
    if run !in b.table.runs || b.table.runs[run].caseId != r.caseId then Err(Forbidden)
    else if !b.table.runs[run].state.WaitingApproval? || b.table.runs[run].waitId != Some(w.waitId)
            || b.table.runs[run].waitGeneration != Some(w.generation) then Err(Conflict)
    else if wait !in b.waits then Err(Forbidden)
    else if !b.waits[wait].forApproval || !(b.waits[wait].state.WaitPending? || b.waits[wait].state.WaitActive?)
    then Err(Conflict)
    else if b.waits[wait].correlationKey != approvalId || b.waits[wait].conditionVersion != r.parametersSha
    then Err(Conflict)
    else Ok(())
  }

  /** The locked action must be the one the request was made for. */
  function ActionMatches(b: Books, tenantId: string, r: Request): Result<()> {
    var k := ActionKey(tenantId, r.actionId);
    if k !in b.actions then Err(Forbidden)
    else if b.actions[k].caseId != r.caseId then Err(Forbidden)
    else if b.actions[k].params.parametersSha != r.parametersSha then Err(Conflict)
    else Ok(())
  }

  predicate HasApproval(approvals: map<ApprovalKey, Approval>, action: ActionKey) {
    exists k :: k in approvals && k.tenantId == action.tenantId && approvals[k].request.actionId == action.actionId
  }

  predicate DecisionKeyTaken(approvals: map<ApprovalKey, Approval>, tenantId: string, key: string) {
    exists k :: k in approvals && k.tenantId == tenantId && approvals[k].decisionKey == Some(key)
  }

  function RequestApproval(b: Books, k: ApprovalKey, r: Request): (Books, Result<(Approval, bool)>) {
    var action := ActionKey(k.tenantId, r.actionId);
    if CaseKey(k.tenantId, r.caseId) !in b.table.cases then (b, Err(Forbidden))
    else if k in b.approvals then
      if ActionMatches(b, k.tenantId, r).Err? then (b, Err(ActionMatches(b, k.tenantId, r).code))
      else if b.approvals[k].request != r then (b, Err(Conflict))
      else (b, Ok((b.approvals[k], true)))
    else if r.binding.Some? && WaitIsBound(b, k.tenantId, k.approvalId, r).Err?
    then (b, Err(WaitIsBound(b, k.tenantId, k.approvalId, r).code))
    else if ActionMatches(b, k.tenantId, r).Err? then (b, Err(ActionMatches(b, k.tenantId, r).code))
    else if !b.actions[action].params.approvalRequired then (b, Err(Conflict))
    else if r.expiresAt <= b.table.now then (b, Err(InvalidInput))
    else if HasApproval(b.approvals, action) then (b, Err(Conflict))
    else
      var row := Approval(r, Pending, None, None, None);
      (b.(approvals := b.approvals[k := row]), Ok((row, false)))
  }

  /** A signal for the bound wait: an active wait is satisfied and its run becomes READY. */
  function SignalWait(b: Books, tenantId: string, r: Request): Books
    requires r.binding.Some? && WaitKey(tenantId, r.caseId, r.binding.value) in b.waits
  {
    var w := r.binding.value;
    var k := WaitKey(tenantId, r.caseId, w);
    if b.waits[k].state.WaitActive? then
      b.(waits := b.waits[k := b.waits[k].(state := Satisfied, replied := true)],
         table := SettleWait(b.table, RunKey(tenantId, w.runId), r.caseId, w.waitId, w.generation))
    else b.(waits := b.waits[k := b.waits[k].(replied := true)])
  }

  datatype Verdict = Verdict(approver: string, approve: bool, key: string, reason: Option<string>)

  function Decided(a: Approval, v: Verdict): Approval {
    a.(decision := if v.approve then Approved else Rejected,
       approver := Some(v.approver), decisionKey := Some(v.key), reason := v.reason)
  }

  predicate VerdictIsWellTyped(v: Verdict) {
    IsIdentifier(v.approver) && IsIdentifier(v.key) && (v.reason.Some? ==> |v.reason.value| <= 2000)
  }

  function Decide(b: Books, k: ApprovalKey, v: Verdict): (Books, Result<Approval>) {
    if k !in b.approvals then (b, Err(Forbidden))
    else
      var a := b.approvals[k];
      var bound := a.request.binding.Some? && a.decision.Pending?;
      if CaseKey(k.tenantId, a.request.caseId) !in b.table.cases then (b, Err(Forbidden))
      else if bound && WaitIsBound(b, k.tenantId, k.approvalId, a.request).Err?
      then (b, Err(WaitIsBound(b, k.tenantId, k.approvalId, a.request).code))
      else if ActionKey(k.tenantId, a.request.actionId) !in b.actions then (b, Err(Forbidden))
      else if ActionMatches(b, k.tenantId, a.request).Err? then (b, Err(Conflict))
      else if !a.decision.Pending? then
        if a == Decided(a, v) then (b, Ok(a)) else (b, Err(Conflict))
      else if a.request.requestedBy == v.approver then (b, Err(Forbidden))
      else if b.table.now >= a.request.expiresAt then (b, Err(Forbidden))
      else if DecisionKeyTaken(b.approvals, k.tenantId, v.key) then (b, Err(Database))
      else if !VerdictIsWellTyped(v) then (b, Err(Validation))
      else
        var b' := b.(approvals := b.approvals[k := Decided(a, v)]);
        (if bound then SignalWait(b', k.tenantId, a.request) else b', Ok(Decided(a, v)))
  }

  const RECONCILER := "approval-expiry-reconciler"

  function ExpiryKey(k: ApprovalKey): string { "expiry:" + k.approvalId }

  function Expire(b: Books, k: ApprovalKey): (Books, Result<Approval>) {
    if k !in b.approvals then (b, Err(Forbidden))
    else
      var a := b.approvals[k];
      if CaseKey(k.tenantId, a.request.caseId) !in b.table.cases then (b, Err(Forbidden))
      else if ActionKey(k.tenantId, a.request.actionId) !in b.actions then (b, Err(Forbidden))
      else if !a.decision.Pending? || b.table.now < a.request.expiresAt then (b, Ok(a))
      else if DecisionKeyTaken(b.approvals, k.tenantId, ExpiryKey(k)) then (b, Err(Database))
      else if !IsIdentifier(ExpiryKey(k)) then (b, Err(Validation))
      else
        var row := a.(decision := Expired, approver := Some(RECONCILER), decisionKey := Some(ExpiryKey(k)));
        (b.(approvals := b.approvals[k := row]), Ok(row))
  }

  // ---------------------------------------------------------------- the repository

  class ApprovalRepository {
    var now: int
    var cases: map<CaseKey, int>
    var runs: map<RunKey, Run>
    var actions: map<ActionKey, Action>
    var approvals: map<ApprovalKey, Approval>
    var waits: map<WaitKey, Wait>

    constructor (now: int)
      ensures View() == Books(Table(now, map[], map[]), map[], map[], map[])
    {
      this.now := now;
      cases, runs, actions, approvals, waits := map[], map[], map[], map[], map[];
    }

    function View(): Books
      reads this
    {
      Books(Table(now, cases, runs), actions, approvals, waits)
    }

    method Submit(k: ApprovalKey, r: Request) returns (outcome: Result<(Approval, bool)>)
      modifies this`approvals
      ensures (View(), outcome) == RequestApproval(old(View()), k, r)
    {
      if CaseKey(k.tenantId, r.caseId) !in cases {
        return Err(Forbidden);
      }
      var action := ActionKey(k.tenantId, r.actionId);
      var matches := ActionMatches(View(), k.tenantId, r);
      if k in approvals {
        if matches.Err? {
          return Err(matches.code);
        }
        if approvals[k].request != r {
          return Err(Conflict);
        }
        return Ok((approvals[k], true));
      }
      if r.binding.Some? {
        var bound := WaitIsBound(View(), k.tenantId, k.approvalId, r);
        if bound.Err? {
          return Err(bound.code);
        }
      }
      if matches.Err? {
        return Err(matches.code);
      }
      if !actions[action].params.approvalRequired {
        return Err(Conflict);
      }
      if r.expiresAt <= now {
        return Err(InvalidInput);
      }
      if HasApproval(approvals, action) {
        return Err(Conflict);
      }
      approvals := approvals[k := Approval(r, Pending, None, None, None)];
      return Ok((approvals[k], false));
    }

    method Rule(k: ApprovalKey, v: Verdict) returns (outcome: Result<Approval>)
      modifies this`approvals, this`waits, this`runs
      ensures (View(), outcome) == Decide(old(View()), k, v)
    {
      if k !in approvals || CaseKey(k.tenantId, approvals[k].request.caseId) !in cases {
        return Err(Forbidden);
      }
      var current := approvals[k];
      var bound := current.request.binding.Some? && current.decision.Pending?;
      if bound {
        var waiting := WaitIsBound(View(), k.tenantId, k.approvalId, current.request);
        if waiting.Err? {
          return Err(waiting.code);
        }
      }
      if ActionKey(k.tenantId, current.request.actionId) !in actions {
        return Err(Forbidden);
      }
      if ActionMatches(View(), k.tenantId, current.request).Err? {
        return Err(Conflict);
      }
      if !current.decision.Pending? {
        var same := current.decision == (if v.approve then Approved else Rejected)
                    && current.approver == Some(v.approver)
                    && current.decisionKey == Some(v.key) && current.reason == v.reason;
        return if same then Ok(current) else Err(Conflict);
      }
      if current.request.requestedBy == v.approver || now >= current.request.expiresAt {
        return Err(Forbidden);
      }
      if DecisionKeyTaken(approvals, k.tenantId, v.key) {
        return Err(Database);
      }
      if !VerdictIsWellTyped(v) {
        return Err(Validation);
      }
      approvals := approvals[k := Decided(current, v)];
      if bound {
        Signal(k.tenantId, current.request);
      }
      return Ok(Decided(current, v));
    }

    /** Store the decision as an inbox signal and settle the wait if it is active. */
    method Signal(tenantId: string, r: Request)
      requires r.binding.Some? && WaitKey(tenantId, r.caseId, r.binding.value) in waits
      modifies this`waits, this`runs
      ensures View() == SignalWait(old(View()), tenantId, r)
    {
      var w := r.binding.value;
      var wait, run := WaitKey(tenantId, r.caseId, w), RunKey(tenantId, w.runId);
      waits := waits[wait := waits[wait].(replied := true)];
      if waits[wait].state.WaitActive? {
        waits := waits[wait := waits[wait].(state := Satisfied)];
        if run in runs && runs[run].caseId == r.caseId && IsWaiting(runs[run].state)
           && runs[run].waitId == Some(w.waitId) && runs[run].waitGeneration == Some(w.generation) {
          runs := runs[run := runs[run].(state := Ready, leaseOwner := None, leaseUntil := None,
                                         waitId := None, waitGeneration := None, availableAt := None)];
        }
      }
    }

    method Lapse(k: ApprovalKey) returns (outcome: Result<Approval>)
      modifies this`approvals
      ensures (View(), outcome) == Expire(old(View()), k)
    {
      if k !in approvals || CaseKey(k.tenantId, approvals[k].request.caseId) !in cases {
        return Err(Forbidden);
      }
      var current := approvals[k];
      if ActionKey(k.tenantId, current.request.actionId) !in actions {
        return Err(Forbidden);
      }
      if !current.decision.Pending? || now < current.request.expiresAt {
        return Ok(current);
      }
      if DecisionKeyTaken(approvals, k.tenantId, ExpiryKey(k)) {
        return Err(Database);
      }
      if !IsIdentifier(ExpiryKey(k)) {
        return Err(Validation);
      }
      approvals := approvals[k := current.(decision := Expired, approver := Some(RECONCILER),
                                           decisionKey := Some(ExpiryKey(k)))];
      return Ok(approvals[k]);
    }
  }
}
