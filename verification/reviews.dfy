/** The REVIEW gate: one decision per review, with an audited budget override. */
module Reviews {
  import opened Common
  import opened Runtime
  import opened Runs

  // ---------------------------------------------------------------- checkpoints

  /** `deadline` is in microseconds. */
  datatype Budget = Budget(modelCalls: int, toolCalls: int, costMicrousd: int, deadline: int)

  datatype NextStep = ModelStep | ToolStep | EvaluateStep | WaitStep | RetryStep | ReviewStep | CompleteStep

  datatype RouteReason =
    | ModelBudgetExhausted | ToolBudgetExhausted | CostBudgetExhausted | DeadlinePassed
    | ModelStrategyChanged | OtherReason(code: string)

  datatype ToolResult = ToolResult(callId: string, artifactScope: CaseKey)

  datatype Checkpoint = Checkpoint(
    scope: CaseKey, runId: string, version: int, savedFencingToken: int,
    stepId: Option<string>, attemptId: Option<string>,
    toolResults: seq<ToolResult>, refScopes: seq<CaseKey>, budget: Budget,
    nextStep: NextStep, routeReason: Option<RouteReason>,
    pendingTool: Option<string>, pendingProposal: Option<string>, resumeNextStep: Option<NextStep>,
    waitId: Option<string>, waitGeneration: Option<int>, availableAt: Option<int>)

  /** The checkpoint's `coherent_checkpoint` validator. */
  ghost predicate Coherent(c: Checkpoint) {
    && (c.attemptId.Some? ==> c.stepId.Some?)
    && (if c.nextStep.WaitStep? then c.waitId.Some? && c.waitGeneration.Some?
        else c.resumeNextStep.None? && c.waitId.None? && c.waitGeneration.None?)
    && (c.nextStep.RetryStep? <==> c.availableAt.Some?)
    && (c.nextStep.ReviewStep? || c.nextStep.RetryStep? <==> c.routeReason.Some?)
    && (c.nextStep.ToolStep? || c.resumeNextStep == Some(ToolStep) <==> c.pendingTool.Some?)
    && (forall i :: 0 <= i < |c.toolResults| && c.pendingTool.Some? ==> c.toolResults[i].callId != c.pendingTool.value)
    && (c.pendingProposal.Some? ==> c.nextStep.EvaluateStep? || c.resumeNextStep == Some(EvaluateStep))
    && (forall i :: 0 <= i < |c.toolResults| ==> c.toolResults[i].artifactScope == c.scope)
    && (forall i :: 0 <= i < |c.refScopes| ==> c.refScopes[i] == c.scope)
    && (forall i, j :: 0 <= i < j < |c.toolResults| ==> c.toolResults[i].callId != c.toolResults[j].callId)
  }

  datatype CheckpointKey = CheckpointKey(run: RunKey, version: int)

  /** A stored checkpoint as the select sees it: the version column beside the payload. */
  datatype Saved = Saved(version: int, payload: Checkpoint)

  // ---------------------------------------------------------------- reviews

  datatype ReviewKey = ReviewKey(tenantId: string, reviewId: string)

  datatype Request = Request(
    caseId: string, runId: string, reasonCode: string, evidenceSha: string, policyVersion: string,
    requestedBy: string, inputVersion: int)

  datatype Ruling = Ruling(resume: bool, reviewer: string, key: string, reason: Option<string>)

  datatype ReviewRow = ReviewRow(request: Request, ruling: Option<Ruling>)

  /** By how much each part of the budget grows; `checkpointVersion` names what it grows from. */
  datatype OverrideRequest = OverrideRequest(
    checkpointVersion: int, modelCalls: nat, toolCalls: nat, costMicrousd: nat, extensionSeconds: nat, reason: string)

  datatype OverrideKey = OverrideKey(tenantId: string, key: string)

  datatype Override = Override(runId: string, reviewId: string, request: OverrideRequest, createdBy: string)

  datatype Desk = Desk(
    table: Table, reviews: map<ReviewKey, ReviewRow>, overrides: map<OverrideKey, Override>,
    checkpoints: map<CheckpointKey, Checkpoint>)

  /** `datetime.max` in microseconds. */
  const MAX_DEADLINE: int := 253_402_300_799_999_999

  // ---------------------------------------------------------------- requesting

  predicate HasPending(reviews: map<ReviewKey, ReviewRow>, run: RunKey) {
    exists k :: k in reviews && k.tenantId == run.tenantId
                && reviews[k].request.runId == run.runId && reviews[k].ruling.None?
  }

  function RunOf(d: Desk, tenantId: string, r: Request): Result<Run> {
    var run := RunKey(tenantId, r.runId);
    if CaseKey(tenantId, r.caseId) !in d.table.cases then Err(Forbidden)
    else if run !in d.table.runs || d.table.runs[run].caseId != r.caseId then Err(Forbidden)
    else Ok(d.table.runs[run])
  }

  /** A second pending review of one run trips the partial unique index, which surfaces as an
      unknown outcome. */
  function Submit(d: Desk, k: ReviewKey, r: Request): (Desk, Result<(ReviewRow, bool)>) {
    match RunOf(d, k.tenantId, r)
    case Err(code) => (d, Err(code))
    case Ok(run) =>
      if k in d.reviews then
        if d.reviews[k].request == r then (d, Ok((d.reviews[k], true))) else (d, Err(Conflict))
      else if !run.state.Review? || run.inputVersion != r.inputVersion then (d, Err(Conflict))
      else if HasPending(d.reviews, RunKey(k.tenantId, r.runId)) then (d, Err(Retryable))
      else (d.(reviews := d.reviews[k := ReviewRow(r, None)]), Ok((ReviewRow(r, None), false)))
  }

  // ---------------------------------------------------------------- overrides

  predicate RaisesExhausted(reason: RouteReason, o: OverrideRequest) {
    match reason
    case ModelBudgetExhausted => o.modelCalls > 0
    case ToolBudgetExhausted => o.toolCalls > 0
    case CostBudgetExhausted => o.costMicrousd > 0
    case DeadlinePassed => o.extensionSeconds > 0
    case _ => false
  }

  predicate NeedsOverride(c: Option<Checkpoint>) {
    && c.Some? && c.value.routeReason.Some?
    && (match c.value.routeReason.value
        case ModelBudgetExhausted => true
        case ToolBudgetExhausted => true
        case CostBudgetExhausted => true
        case DeadlinePassed => true
        case _ => false)
  }

  function Raised(b: Budget, o: OverrideRequest): Budget {
    Budget(b.modelCalls + o.modelCalls, b.toolCalls + o.toolCalls, b.costMicrousd + o.costMicrousd,
           b.deadline + o.extensionSeconds * 1_000_000)
  }

  /** The unvalidated `model_copy` of the latest checkpoint. */
  function Resumed(c: Checkpoint, o: OverrideRequest): Checkpoint {
    c.(version := c.version + 1, budget := Raised(c.budget, o), nextStep := ModelStep, routeReason := None,
       availableAt := None, pendingTool := None, pendingProposal := None,
       waitId := None, waitGeneration := None, resumeNextStep := None)
  }

  /** The payload of the selected row, if it is what its columns say it is. */
  function ReadCheckpoint(latest: Option<Saved>, run: RunKey, caseId: string): Result<Option<Checkpoint>> {
    match latest
    case None => Ok(None)
    case Some(row) =>
      if row.payload.version != row.version then Err(Retryable)
      else if (row.payload.scope, row.payload.runId) != (CaseKey(run.tenantId, caseId), run.runId) then Err(Forbidden)
      else Ok(Some(row.payload))
  }

  /** The checkpoint a CONTINUE stages, if it needs one. */
  function Stage(latest: Option<Saved>, run: RunKey, caseId: string, o: Option<OverrideRequest>)
    : Result<Option<Checkpoint>>
  {
    match ReadCheckpoint(latest, run, caseId)
    case Err(code) => Err(code)
    case Ok(c) => ResumeBudget(c, o)
  }

  /** `_assert_resume_budget` on the checkpoint that was read. */
  function ResumeBudget(latest: Option<Checkpoint>, o: Option<OverrideRequest>): Result<Option<Checkpoint>> {
    if latest.Some? && latest.value.routeReason == Some(ModelStrategyChanged) then Err(Conflict)
    else if !NeedsOverride(latest) then (if o.Some? then Err(Conflict) else Ok(None))
    else
      var c, reason := latest.value, latest.value.routeReason.value;
      if o.None? then Err(if reason.DeadlinePassed? then Conflict else BudgetExhausted)
      else if o.value.checkpointVersion != c.version then Err(Conflict)
      else if !RaisesExhausted(reason, o.value) then Err(InvalidInput)
      else
        var b := Raised(c.budget, o.value);
        if b.modelCalls > MAX_BIGINT || b.toolCalls > MAX_BIGINT || b.costMicrousd > MAX_BIGINT then Err(InvalidInput)
        else if b.deadline > MAX_DEADLINE then Err(InvalidInput)
        else Ok(Some(Resumed(c, o.value)))
  }

  // ---------------------------------------------------------------- deciding

  predicate KeyTaken(reviews: map<ReviewKey, ReviewRow>, tenantId: string, key: string) {
    exists k :: k in reviews && k.tenantId == tenantId && reviews[k].ruling.Some? && reviews[k].ruling.value.key == key
  }

  predicate IsWellTyped(v: Ruling) {
    IsIdentifier(v.reviewer) && IsIdentifier(v.key) && (v.reason.Some? ==> |v.reason.value| <= 2000)
  }

  /** `latest` is what the ordered, locking select returns for the run. */
  ghost predicate IsLatest(checkpoints: map<CheckpointKey, Checkpoint>, run: RunKey, latest: Option<Saved>) {
    match latest
    case None => forall k :: k in checkpoints ==> k.run != run
    case Some(row) =>
      && CheckpointKey(run, row.version) in checkpoints && checkpoints[CheckpointKey(run, row.version)] == row.payload
      && forall k :: k in checkpoints && k.run == run ==> k.version <= row.version
  }

  function StoredOverride(d: Desk, tenantId: string, key: string): Option<OverrideRequest> {
    if OverrideKey(tenantId, key) in d.overrides then Some(d.overrides[OverrideKey(tenantId, key)].request) else None
  }

  function Decide(d: Desk, k: ReviewKey, latest: Option<Saved>, v: Ruling, o: Option<OverrideRequest>)
    : (Desk, Result<ReviewRow>)
  {
    if k !in d.reviews then (d, Err(Forbidden))
    else
      var current := d.reviews[k];
      match RunOf(d, k.tenantId, current.request)
      case Err(code) => (d, Err(code))
      case Ok(run) =>
        if current.ruling.Some? then
          if current.ruling == Some(v) && StoredOverride(d, k.tenantId, v.key) == o then (d, Ok(current))
          else (d, Err(Conflict))
        else if !run.state.Review? || run.inputVersion != current.request.inputVersion then (d, Err(Conflict))
        else if v.reviewer == current.request.requestedBy then (d, Err(Forbidden))
        else if !v.resume && o.Some? then (d, Err(InvalidInput))
        else
          var own := RunKey(k.tenantId, current.request.runId);
          var staged := if v.resume then Stage(latest, own, current.request.caseId, o) else Ok(None);
          match staged
          case Err(code) => (d, Err(code))
          case Ok(next) => Record(d, k, v, o, next)
  }

  /** The writes of one decision, all in one transaction. */
  function Record(d: Desk, k: ReviewKey, v: Ruling, o: Option<OverrideRequest>, next: Option<Checkpoint>)
    : (Desk, Result<ReviewRow>)
    requires k in d.reviews
  {
    var r := d.reviews[k].request;
    var run, key := RunKey(k.tenantId, r.runId), OverrideKey(k.tenantId, v.key);
    if next.Some? && (CheckpointKey(run, next.value.version) in d.checkpoints || key in d.overrides)
    then (d, Err(Database))
    else if KeyTaken(d.reviews, k.tenantId, v.key) then (d, Err(Database))
    else if !IsWellTyped(v) then (d, Err(Validation))
    else
      var decided := ReviewRow(r, Some(v));
      (d.(table := ResolveReview(d.table, run, r.caseId, v.resume).0,
          reviews := d.reviews[k := decided],
          overrides := if next.Some? && o.Some?
                       then d.overrides[key := Override(r.runId, k.reviewId, o.value, v.reviewer)]
                       else d.overrides,
          checkpoints := if next.Some?
                         then d.checkpoints[CheckpointKey(run, next.value.version) := next.value]
                         else d.checkpoints),
       Ok(decided))
  }

  // ---------------------------------------------------------------- the repository

  class ReviewRepository {
    var now: int
    var cases: map<CaseKey, int>
    var runs: map<RunKey, Run>
    var reviews: map<ReviewKey, ReviewRow>
    var overrides: map<OverrideKey, Override>
    var checkpoints: map<CheckpointKey, Checkpoint>

    constructor (now: int)
      ensures View() == Desk(Table(now, map[], map[]), map[], map[], map[])
    {
      this.now := now;
      cases, runs, reviews, overrides, checkpoints := map[], map[], map[], map[], map[];
    }

    function View(): Desk
      reads this
    {
      Desk(Table(now, cases, runs), reviews, overrides, checkpoints)
    }

    method Request(k: ReviewKey, r: Request) returns (outcome: Result<(ReviewRow, bool)>)
      modifies this`reviews
      ensures (View(), outcome) == Submit(old(View()), k, r)
    {
      var locked := RunOf(View(), k.tenantId, r);
      if locked.Err? {
        return Err(locked.code);
      }
      if k in reviews {
        return if reviews[k].request == r then Ok((reviews[k], true)) else Err(Conflict);
      }
      if locked.value.state != RunState.Review || locked.value.inputVersion != r.inputVersion {
        return Err(Conflict);
      }
      if HasPending(reviews, RunKey(k.tenantId, r.runId)) {
        return Err(Retryable);
      }
      reviews := reviews[k := ReviewRow(r, None)];
      return Ok((reviews[k], false));
    }

    /** The newest checkpoint of a run, by its version column. */
    method LatestCheckpoint(run: RunKey) returns (latest: Option<Saved>)
      ensures IsLatest(checkpoints, run, latest)
    {
      latest := None;
      var rest := checkpoints.Keys;
      while rest != {}
        invariant rest <= checkpoints.Keys
        invariant latest.None? ==> forall k :: k in checkpoints && k !in rest ==> k.run != run
        invariant latest.Some? ==>
                    && CheckpointKey(run, latest.value.version) in checkpoints
                    && checkpoints[CheckpointKey(run, latest.value.version)] == latest.value.payload
                    && forall k :: k in checkpoints && k !in rest && k.run == run ==> k.version <= latest.value.version
      {
        var k :| k in rest;
        if k.run == run && (latest.None? || k.version > latest.value.version) {
          latest := Some(Saved(k.version, checkpoints[k]));
          assert CheckpointKey(run, k.version) == k;
        }
        rest := rest - {k};
      }
    }

    /** `decide`: find the latest checkpoint of the review's run, then rule on the review. */
    method DecideReview(k: ReviewKey, v: Ruling, o: Option<OverrideRequest>)
      returns (outcome: Result<ReviewRow>, ghost latest: Option<Saved>)
      modifies this`runs, this`reviews, this`overrides, this`checkpoints
      ensures k in old(reviews) ==>
                IsLatest(old(checkpoints), RunKey(k.tenantId, old(reviews)[k].request.runId), latest)
      ensures (View(), outcome) == Decide(old(View()), k, latest, v, o)
    {
      var found := None;
      if k in reviews {
        found := LatestCheckpoint(RunKey(k.tenantId, reviews[k].request.runId));
      }
      latest := found;
      outcome := Rule(k, found, v, o);
    }

    method Rule(k: ReviewKey, latest: Option<Saved>, v: Ruling, o: Option<OverrideRequest>)
      returns (outcome: Result<ReviewRow>)
      modifies this`runs, this`reviews, this`overrides, this`checkpoints
      ensures (View(), outcome) == Decide(old(View()), k, latest, v, o)
    {
      if k !in reviews {
        return Err(Forbidden);
      }
      var current := reviews[k];
      var locked := RunOf(View(), k.tenantId, current.request);
      if locked.Err? {
        return Err(locked.code);
      }
      if current.ruling.Some? {
        var same := current.ruling.value == v && StoredOverride(View(), k.tenantId, v.key) == o;
        return if same then Ok(current) else Err(Conflict);
      }
      if locked.value.state != RunState.Review || locked.value.inputVersion != current.request.inputVersion {
        return Err(Conflict);
      }
      if v.reviewer == current.request.requestedBy {
        return Err(Forbidden);
      }
      var next: Option<Checkpoint> := None;
      if v.resume {
        var read := ReadCheckpoint(latest, RunKey(k.tenantId, current.request.runId), current.request.caseId);
        if read.Err? {
          return Err(read.code);
        }
        var staged := ResumeBudget(read.value, o);
        if staged.Err? {
          return Err(staged.code);
        }
        next := staged.value;
      } else if o.Some? {
        return Err(InvalidInput);
      }
      outcome := Write(k, v, o, next);
    }

    /** Checkpoint and audit row first, then the decision, then the run. */
    method Write(k: ReviewKey, v: Ruling, o: Option<OverrideRequest>, next: Option<Checkpoint>)
      returns (outcome: Result<ReviewRow>)
      requires k in reviews
      modifies this`runs, this`reviews, this`overrides, this`checkpoints
      ensures (View(), outcome) == Record(old(View()), k, v, o, next)
    {
      var r := reviews[k].request;
      var run, key := RunKey(k.tenantId, r.runId), OverrideKey(k.tenantId, v.key);
      if next.Some? && (CheckpointKey(run, next.value.version) in checkpoints || key in overrides) {
        return Err(Database);
      }
      if KeyTaken(reviews, k.tenantId, v.key) {
        return Err(Database);
      }
      if !IsWellTyped(v) {
        return Err(Validation);
      }
      if next.Some? {
        checkpoints := checkpoints[CheckpointKey(run, next.value.version) := next.value];
        if o.Some? {
          overrides := overrides[key := Override(r.runId, k.reviewId, o.value, v.reviewer)];
        }
      }
      reviews := reviews[k := ReviewRow(r, Some(v))];
      var target := if v.resume then Ready else Cancelled;
      if run in runs && runs[run].caseId == r.caseId && runs[run].state.Review? {
        runs := runs[run := runs[run].(state := target, leaseOwner := None, leaseUntil := None,
                                       waitId := None, waitGeneration := None, availableAt := None)];
      }
      return Ok(reviews[k]);
    }
  }
}
