/** The run table: leases on the database clock, guarded by a monotone fencing token. Each
    function is one committed transaction; an error leaves the table as it was. */
module Runs {
  import opened Common
  import opened Runtime

  datatype Table = Table(now: int, cases: map<CaseKey, int>, runs: map<RunKey, Run>)

  function Holder(t: Table, claim: Claim): Option<Run> {
    var k := claim.Key();
    if k in t.runs && t.runs[k].caseId == claim.caseId then Some(t.runs[k]) else None
  }

  /** The fence every claimed write re-checks under the row lock. */
  predicate HoldsRight(t: Table, claim: Claim) {
    var k := claim.Key();
    k in t.runs && AssertExecutionRight(k, t.runs[k], claim, t.now).Ok?
  }

  function WithRun(t: Table, k: RunKey, r: Run): Table { t.(runs := t.runs[k := r]) }

  // ---------------------------------------------------------------- creation

  /** `create_run`: the insert leaves lease, wait and retry columns empty, so the table's
      CHECK constraints refuse a record whose state needs one of them. */
  function CreateRun(t: Table, k: RunKey, r: Run): (Table, Result<()>)
    requires ValidRecord(k.runId, r)
  {
    if CaseKey(k.tenantId, r.caseId) !in t.cases || k in t.runs then (t, Err(Database))
    else if r.state.Running? || IsWaiting(r.state) || r.state.RetryAt? then (t, Err(Database))
    else (WithRun(t, k, r), Ok(()))
  }

  // ---------------------------------------------------------------- claim and renew

  predicate LeaseExpired(r: Run, now: int) {
    r.state.Running? && r.leaseUntil.Some? && r.leaseUntil.value <= now
  }

  function Leased(r: Run, owner: string, until: int): Run {
    r.(state := Running, leaseOwner := Some(owner), leaseUntil := Some(until), fencingToken := r.fencingToken + 1)
  }

  /** Taking the lease fails outside the WHERE clause only on a malformed owner or an
      exhausted token, which the returned claim's own validation rejects. */
  function TakeLease(t: Table, k: RunKey, r: Run, owner: string, lease: int): (Table, Result<Claim>) {
    if !IsIdentifier(owner) || r.fencingToken >= MAX_BIGINT then (t, Err(Validation))
    else
      (WithRun(t, k, Leased(r, owner, t.now + lease)),
       Ok(Claim(k.tenantId, r.caseId, k.runId, owner, r.fencingToken + 1)))
  }

  function ClaimRun(t: Table, k: RunKey, owner: string, lease: int): (Table, Result<Claim>) {
    if k in t.runs && (t.runs[k].state.Ready? || LeaseExpired(t.runs[k], t.now))
    then TakeLease(t, k, t.runs[k], owner, lease)
    else (t, Err(Conflict))
  }

  predicate RetryDue(r: Run, now: int) {
    r.state.RetryAt? && r.availableAt.Some? && r.availableAt.value <= now
  }

  /** What shared dispatch may pick: a ready run, a due retry or an expired lease. */
  predicate Dispatchable(r: Run, now: int) {
    r.state.Ready? || RetryDue(r, now) || LeaseExpired(r, now)
  }

  /** The run-table half of `claim_next` once the queue has picked a run: a due retry
      becomes READY first, then the lease is taken. */
  function DispatchRun(t: Table, k: RunKey, owner: string, lease: int): (Table, Result<Claim>)
    requires k in t.runs && Dispatchable(t.runs[k], t.now)
  {
    var r := t.runs[k];
    TakeLease(t, k, if r.state.RetryAt? then r.(state := Ready, availableAt := None) else r, owner, lease)
  }

  function Renew(t: Table, claim: Claim, lease: int): (Table, Result<()>) {
    if HoldsRight(t, claim) then
      (WithRun(t, claim.Key(), t.runs[claim.Key()].(leaseUntil := Some(t.now + lease))), Ok(()))
    else (t, Err(LeaseLost))
  }

  // ---------------------------------------------------------------- transitions

  datatype Move = Move(
    target: RunState, caseVersion: Option<int>, expectedCaseVersion: Option<int>,
    waitId: Option<string>, waitGeneration: Option<int>, availableAt: Option<int>)

  predicate WaitBindingOk(m: Move) {
    if IsWaiting(m.target) then m.waitId.Some? && m.waitGeneration.Some? && m.waitGeneration.value >= 1
    else m.waitId.None? && m.waitGeneration.None?
  }

  predicate VersionsAgree(m: Move) {
    m.caseVersion.Some? && m.expectedCaseVersion.Some? ==> m.caseVersion == m.expectedCaseVersion
  }

  function ExpectedVersion(m: Move): Option<int> {
    if m.caseVersion.Some? then m.caseVersion else m.expectedCaseVersion
  }

  function Moved(r: Run, m: Move): Run {
    r.(state := m.target, leaseOwner := None, leaseUntil := None,
       waitId := m.waitId, waitGeneration := m.waitGeneration, availableAt := m.availableAt)
  }

  function Transition(t: Table, claim: Claim, m: Move): (Table, Result<Run>) {
    if !VersionsAgree(m) then (t, Err(Conflict))
    else if m.target.Running? then (t, Err(Conflict))
    else if claim.Case() !in t.cases then (t, Err(Forbidden))
    else if ExpectedVersion(m).Some? && ExpectedVersion(m).value != t.cases[claim.Case()] then (t, Err(Conflict))
    else
      match Holder(t, claim)
      case None => (t, Err(Forbidden))
      case Some(previous) =>
        if !ValidRecord(claim.runId, previous) then (t, Err(Validation))
        else if ValidateTransition(previous.state, m.target).Err? then (t, Err(Conflict))
        else if previous.state.Running? && !HoldsRight(t, claim) then (t, Err(LeaseLost))
        else if !WaitBindingOk(m) then (t, Err(InvalidInput))
        else if m.target.RetryAt? != m.availableAt.Some? then (t, Err(InvalidInput))
        else if !ValidRecord(claim.runId, Moved(previous, m)) then (t, Err(Validation))
        else (WithRun(t, claim.Key(), Moved(previous, m)), Ok(Moved(previous, m)))
  }

  /** A settled wait wakes the run that is bound to exactly this wait and generation. */
  function SettleWait(t: Table, k: RunKey, caseId: string, waitId: string, generation: int): Table {
    if k in t.runs && t.runs[k].caseId == caseId && IsWaiting(t.runs[k].state)
       && t.runs[k].waitId == Some(waitId) && t.runs[k].waitGeneration == Some(generation)
    then WithRun(t, k, Moved(t.runs[k], Move(Ready, None, None, None, None, None)))
    else t
  }

  /** A review decision routes the run it belongs to, and only out of REVIEW. */
  function ResolveReview(t: Table, k: RunKey, caseId: string, resume: bool): (Table, Result<()>) {
    var target := if resume then Ready else Cancelled;
    if k !in t.runs || t.runs[k].caseId != caseId then (t, Err(Forbidden))
    else if t.runs[k].state == target then (t, Ok(()))
    else if !t.runs[k].state.Review? then (t, Err(Conflict))
    else (WithRun(t, k, Moved(t.runs[k], Move(target, None, None, None, None, None))), Ok(()))
  }
}
