/** Rows of the action ledger and of the approval gate, beside the run table. */
module Ledger {
  import opened Common
  import opened Runtime
  import opened Runs

  datatype ActionState = Reserved | Requested | Unknown | Confirmed | Failed

  /** The obligation itself: what `_same_parameters` compares. */
  datatype Params = Params(
    orderId: string, actionType: string, businessKey: string, parametersSha: string, amountMinor: string,
    currency: string, providerKey: Option<string>, approvalRequired: bool)

  datatype Intent = Intent(tenantId: string, caseId: string, actionId: string, idempotencyKey: string, params: Params) {
    function Key(): ActionKey { ActionKey(tenantId, actionId) }
  }

  datatype Outcome = Outcome(providerReference: Option<string>, resultSha: Option<string>, failureCode: Option<string>)

  const NO_OUTCOME := Outcome(None, None, None)

  datatype ActionKey = ActionKey(tenantId: string, actionId: string)

  datatype Action = Action(
    caseId: string, idempotencyKey: string, params: Params,
    state: ActionState, outcome: Outcome, fencingToken: Option<int>)

  datatype Decision = Pending | Approved | Rejected | Expired | Withdrawn

  datatype WaitBinding = WaitBinding(runId: string, waitId: string, generation: int)

  /** Everything about an approval that is fixed when it is requested. */
  datatype Request = Request(
    caseId: string, actionId: string, parametersSha: string, policyVersion: string,
    requestedBy: string, expiresAt: int, binding: Option<WaitBinding>)

  datatype Approval = Approval(
    request: Request, decision: Decision,
    approver: Option<string>, decisionKey: Option<string>, reason: Option<string>)

  datatype ApprovalKey = ApprovalKey(tenantId: string, approvalId: string)

  datatype WaitState = WaitPending | WaitActive | Satisfied | TimedOut | WaitCancelled

  datatype WaitKey = WaitKey(tenantId: string, caseId: string, binding: WaitBinding)

  /** `replied` records that a matching signal sits in the inbox. */
  datatype Wait = Wait(
    forApproval: bool, correlationKey: string, conditionVersion: string, state: WaitState, replied: bool)

  datatype Books = Books(
    table: Table, actions: map<ActionKey, Action>, approvals: map<ApprovalKey, Approval>, waits: map<WaitKey, Wait>)

  predicate IsHexDigit(c: char) { '0' <= c <= '9' || 'a' <= c <= 'f' }

  predicate IsSha256(s: string) { |s| == 64 && forall i :: 0 <= i < |s| ==> IsHexDigit(s[i]) }

  /** `_claim_valid`: the case must exist, then the fence must hold. */
  function ClaimValid(t: Table, claim: Claim): Result<()> {
    if claim.Case() !in t.cases then Err(Forbidden)
    else if !HoldsRight(t, claim) then Err(LeaseLost)
    else Ok(())
  }
}
