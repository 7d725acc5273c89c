/** The run row, what its validator accepts, and the stateless tests the run table is compared with. */
module Runtime {
  import opened Common

  datatype RunState =
    | Ready | Running | WaitingInput | WaitingApproval | RetryAt | Review | Completed | Cancelled

  datatype Run = Run(
    caseId: string, predecessor: Option<string>, inputVersion: int,
    state: RunState, fencingToken: int,
    leaseOwner: Option<string>, leaseUntil: Option<int>,
    waitId: Option<string>, waitGeneration: Option<int>, availableAt: Option<int>)

  /** A worker's proof that it was handed a run under one fencing token. */
  datatype Claim = Claim(tenantId: string, caseId: string, runId: string, owner: string, fencingToken: int) {
    function Key(): RunKey { RunKey(tenantId, runId) }
    function Case(): CaseKey { CaseKey(tenantId, caseId) }
  }

  predicate IsWaiting(s: RunState) { s.WaitingInput? || s.WaitingApproval? }

  predicate IsTerminal(s: RunState) { s.Completed? || s.Cancelled? }

  /** The run record's `coherent_state` validator. */
  predicate CoherentState(runId: string, r: Run) {
    && r.predecessor != Some(runId)
    && (if r.state.Running?
        then r.leaseOwner.Some? && r.leaseOwner.value != "" && r.leaseUntil.Some? && r.fencingToken >= 1
        else r.leaseOwner.None? && r.leaseUntil.None?)
    && (if IsWaiting(r.state) then r.waitId.Some? && r.waitGeneration.Some?
        else r.waitId.None? && r.waitGeneration.None?)
    && (r.state.RetryAt? <==> r.availableAt.Some?)
  }

  /** The record's field types: identifiers and bounded integers. */
  predicate WellTyped(r: Run) {
    && 1 <= r.inputVersion <= MAX_BIGINT && 0 <= r.fencingToken <= MAX_BIGINT
    && (r.leaseOwner.Some? ==> IsIdentifier(r.leaseOwner.value))
    && (r.waitId.Some? ==> IsIdentifier(r.waitId.value))
    && (r.waitGeneration.Some? ==> 1 <= r.waitGeneration.value <= MAX_BIGINT)
  }

  predicate ValidRecord(runId: string, r: Run) {
    WellTyped(r) && CoherentState(runId, r)
  }

  /** Does `claim` carry the execution right over the run stored under `k`? */
  function AssertExecutionRight(k: RunKey, run: Run, claim: Claim, now: int): (r: Result<()>) {
    if CaseKey(k.tenantId, run.caseId) != claim.Case() then Err(Forbidden)
    else if k.runId != claim.runId then Err(Forbidden)
    else if !run.state.Running? || run.leaseOwner != Some(claim.owner) || run.fencingToken != claim.fencingToken
            || run.leaseUntil.None? || now >= run.leaseUntil.value then Err(LeaseLost)
    else Ok(())
  }

  function NextFencingToken(run: Run, now: int): (r: Result<int>) {
    var reclaimable := run.state.Running? && run.leaseUntil.Some? && now >= run.leaseUntil.value;
    if !run.state.Ready? && !reclaimable then Err(Conflict)
    else if run.fencingToken == MAX_BIGINT then Err(Conflict)
    else Ok(run.fencingToken + 1)
  }

  function Successors(s: RunState): set<RunState> {
    match s
    case Ready => {Running, Cancelled}
    case Running => {Ready, WaitingInput, WaitingApproval, RetryAt, Review, Completed, Cancelled}
    case WaitingInput => {Ready, Cancelled}
    case WaitingApproval => {Ready, Cancelled}
    case RetryAt => {Ready, Cancelled}
    case Review => {Ready, Cancelled}
    case Completed => {}
    case Cancelled => {}
  }

  function ValidateTransition(previous: RunState, target: RunState): (r: Result<()>) {
    if target in Successors(previous) then Ok(()) else Err(Conflict)
  }
}
