/** Reviews are resolved once, replays never route, and overrides add exactly what they say. */
module ReviewProperties {
  import opened Common
  import opened Runtime
  import opened Runs
  import Fencing
  import opened Reviews

  // ---------------------------------------------------------------- histories

  datatype Op =
    | RunOp(op: Fencing.Op)
    | SavePoint(point: CheckpointKey, checkpoint: Checkpoint)
    | Submit(key: ReviewKey, request: Request)
    | Rule(key: ReviewKey, latest: Option<Saved>, ruling: Ruling, addition: Option<OverrideRequest>)

  /** Decisions reach the run table only through `Rule`; everything else may happen to it. */
  ghost predicate Enabled(d: Desk, op: Op) {
    match op
    case RunOp(o) => Fencing.Enabled(d.table, o) && !o.Resolve?
    case SavePoint(k, c) => k !in d.checkpoints && c.version == k.version && Coherent(c)
    case Submit(_, _) => true
    case Rule(k, latest, _, _) =>
      k in d.reviews ==> IsLatest(d.checkpoints, RunKey(k.tenantId, d.reviews[k].request.runId), latest)
  }

  ghost function Step(d: Desk, op: Op): Desk
    requires Enabled(d, op)
  {
    match op
    case RunOp(o) => d.(table := Fencing.Step(d.table, o))
    case SavePoint(k, c) => d.(checkpoints := d.checkpoints[k := c])
    case Submit(k, r) => Reviews.Submit(d, k, r).0
    case Rule(k, latest, v, o) => Decide(d, k, latest, v, o).0
  }

  ghost predicate History(ds: seq<Desk>, ops: seq<Op>) {
    && |ds| == |ops| + 1
    && forall i {:trigger ops[i]} :: 0 <= i < |ops| ==> Enabled(ds[i], ops[i]) && ds[i + 1] == Step(ds[i], ops[i])
  }

  // ---------------------------------------------------------------- invariant

  ghost predicate Decided(d: Desk, k: ReviewKey) { k in d.reviews && d.reviews[k].ruling.Some? }

  /** Every override belongs to a decided review that carries its key. */
  ghost predicate OverridesOwned(d: Desk) {
    forall x :: x in d.overrides ==>
      var k := ReviewKey(x.tenantId, d.overrides[x].reviewId);
      Decided(d, k) && d.reviews[k].ruling.value.key == x.key
  }

  ghost predicate CheckpointsCoherent(d: Desk) {
    forall k :: k in d.checkpoints ==> d.checkpoints[k].version == k.version && Coherent(d.checkpoints[k])
  }

  ghost predicate Sound(d: Desk) { OverridesOwned(d) && CheckpointsCoherent(d) }

  lemma EmptyDeskIsSound(t: Table)
    ensures Sound(Desk(t, map[], map[], map[]))
  {
  }

  /** What every step keeps of the state before it. */
  ghost predicate Keeps(d: Desk, d': Desk) {
    && (forall c :: c in d.table.cases ==> c in d'.table.cases)
    && (forall r :: r in d.table.runs ==> r in d'.table.runs && d'.table.runs[r].caseId == d.table.runs[r].caseId)
    && (forall k :: k in d.reviews ==> k in d'.reviews && d'.reviews[k].request == d.reviews[k].request)
    && (forall k :: Decided(d, k) ==> d'.reviews[k] == d.reviews[k] && SameOverride(d, d', k))
    && (forall c :: c in d.checkpoints ==> c in d'.checkpoints && d'.checkpoints[c] == d.checkpoints[c])
  }

  ghost predicate SameOverride(d: Desk, d': Desk, k: ReviewKey)
    requires Decided(d, k)
  {
    var key := d.reviews[k].ruling.value.key;
    StoredOverride(d', k.tenantId, key) == StoredOverride(d, k.tenantId, key)
  }

  // ---------------------------------------------------------------- the unvalidated copy

  /** The copied checkpoint is coherent although nothing validates it, and its budget is the
      old one plus exactly the additions, within 64 bits and strictly above where it was
      exhausted. */
  lemma ResumedIsCoherent(latest: Option<Checkpoint>, o: Option<OverrideRequest>)
    requires ResumeBudget(latest, o).Ok? && ResumeBudget(latest, o).value.Some?
    ensures latest.Some? && o.Some? && latest.value.routeReason.Some?
    ensures var c, c', add := latest.value, ResumeBudget(latest, o).value.value, o.value;
            && (Coherent(c) ==> Coherent(c'))
            && c'.version == c.version + 1 == add.checkpointVersion + 1
            && c'.budget.modelCalls == c.budget.modelCalls + add.modelCalls <= MAX_BIGINT
            && c'.budget.toolCalls == c.budget.toolCalls + add.toolCalls <= MAX_BIGINT
            && c'.budget.costMicrousd == c.budget.costMicrousd + add.costMicrousd <= MAX_BIGINT
            && c'.budget.deadline == c.budget.deadline + 1_000_000 * add.extensionSeconds <= MAX_DEADLINE
            && Exhausted(c.routeReason.value, c.budget) < Exhausted(c.routeReason.value, c'.budget)
            && NothingFalls(c.budget, c'.budget)
            && c'.savedFencingToken == c.savedFencingToken && c'.toolResults == c.toolResults && c'.scope == c.scope
  {
  }

  ghost predicate NothingFalls(b: Budget, b': Budget) {
    && b.modelCalls <= b'.modelCalls && b.toolCalls <= b'.toolCalls
    && b.costMicrousd <= b'.costMicrousd && b.deadline <= b'.deadline
  }

  /** The part of the budget a route reason says ran out. */
  function Exhausted(r: RouteReason, b: Budget): int {
    match r
    case ModelBudgetExhausted => b.modelCalls
    case ToolBudgetExhausted => b.toolCalls
    case CostBudgetExhausted => b.costMicrousd
    case _ => b.deadline
  }

  function Payload(latest: Option<Saved>): Option<Checkpoint> {
    if latest.Some? then Some(latest.value.payload) else None
  }

  /** A decision lets a run that stopped on a budget or deadline go on only by raising it. */
  lemma NoFreeResume(d: Desk, k: ReviewKey, latest: Option<Saved>, v: Ruling, o: Option<OverrideRequest>)
    requires k in d.reviews && d.reviews[k].ruling.None? && v.resume && NeedsOverride(Payload(latest))
    requires Decide(d, k, latest, v, o).1.Ok?
    ensures o.Some? && o.value.checkpointVersion == latest.value.version == latest.value.payload.version
    ensures var d', c := Decide(d, k, latest, v, o).0, latest.value.payload;
            var point := CheckpointKey(RunKey(k.tenantId, d.reviews[k].request.runId), c.version + 1);
            && point in d'.checkpoints && d'.checkpoints[point] == Resumed(c, o.value)
            && RaisesExhausted(c.routeReason.value, o.value)
            && OverrideKey(k.tenantId, v.key) in d'.overrides
            && d'.overrides[OverrideKey(k.tenantId, v.key)]
               == Override(d.reviews[k].request.runId, k.reviewId, o.value, v.reviewer)
  {
  }

  /** A first decision takes exactly its own run out of REVIEW. */
  lemma FirstDecisionRoutes(d: Desk, k: ReviewKey, latest: Option<Saved>, v: Ruling, o: Option<OverrideRequest>)
    requires k in d.reviews && d.reviews[k].ruling.None? && Decide(d, k, latest, v, o).1.Ok?
    ensures var d', run := Decide(d, k, latest, v, o).0, RunKey(k.tenantId, d.reviews[k].request.runId);
            && run in d.table.runs && d.table.runs[run].state.Review?
            && run in d'.table.runs && d'.table.runs[run].state == (if v.resume then Ready else Cancelled)
            && d'.table.runs[run].fencingToken == d.table.runs[run].fencingToken
            && d'.table.runs - {run} == d.table.runs - {run}
            && v.reviewer != d.reviews[k].request.requestedBy
            && d'.reviews == d.reviews[k := ReviewRow(d.reviews[k].request, Some(v))]
  {
    var d', run := Decide(d, k, latest, v, o).0, RunKey(k.tenantId, d.reviews[k].request.runId);
    assert d'.table.runs - {run} == d.table.runs - {run};
  }

  /** A decided review never routes anything again, whatever is submitted for it. */
  lemma ReplayNeverRoutes(d: Desk, k: ReviewKey, latest: Option<Saved>, v: Ruling, o: Option<OverrideRequest>)
    requires Decided(d, k)
    ensures Decide(d, k, latest, v, o).0 == d
    ensures Decide(d, k, latest, v, o).1.Ok? ==>
              d.reviews[k].ruling == Some(v) && Decide(d, k, latest, v, o).1 == Ok(d.reviews[k])
  {
  }

  // ---------------------------------------------------------------- every step

  /** What a decision writes. */
  ghost predicate Writes(d: Desk, d': Desk, k: ReviewKey, v: Ruling, o: Option<OverrideRequest>) {
    && k in d.reviews && d.reviews[k].ruling.None? && !KeyTaken(d.reviews, k.tenantId, v.key)
    && d'.reviews == d.reviews[k := ReviewRow(d.reviews[k].request, Some(v))]
    && (if o.Some? then
          && OverrideKey(k.tenantId, v.key) !in d.overrides
          && d'.overrides == d.overrides[OverrideKey(k.tenantId, v.key) :=
                                         Override(d.reviews[k].request.runId, k.reviewId, o.value, v.reviewer)]
        else d'.overrides == d.overrides)
  }

  lemma DecisionWrites(d: Desk, k: ReviewKey, latest: Option<Saved>, v: Ruling, o: Option<OverrideRequest>)
    ensures var (d', r) := Decide(d, k, latest, v, o);
            d' == d || (Writes(d, d', k, v, o) && r == Ok(ReviewRow(d.reviews[k].request, Some(v))))
  {
  }

  lemma DecisionOnTable(d: Desk, k: ReviewKey, latest: Option<Saved>, v: Ruling, o: Option<OverrideRequest>)
    ensures var d' := Decide(d, k, latest, v, o).0;
            && d'.table.cases == d.table.cases
            && (forall r :: r in d.table.runs ==>
                  r in d'.table.runs && d'.table.runs[r].caseId == d.table.runs[r].caseId)
  {
  }

  /** A decision adds at most the staged copy, under a version nobody has used. */
  lemma DecisionAddsCheckpoint(d: Desk, k: ReviewKey, latest: Option<Saved>, v: Ruling, o: Option<OverrideRequest>)
    ensures var d', staged := Decide(d, k, latest, v, o).0, ResumeBudget(Payload(latest), o);
            d'.checkpoints == d.checkpoints
            || (&& k in d.reviews && staged.Ok? && staged.value.Some?
                && (var run := RunKey(k.tenantId, d.reviews[k].request.runId);
                    var point := CheckpointKey(run, staged.value.value.version);
                    point !in d.checkpoints && d'.checkpoints == d.checkpoints[point := staged.value.value]))
  {
  }

  lemma DecisionOnCheckpoints(d: Desk, k: ReviewKey, latest: Option<Saved>, v: Ruling, o: Option<OverrideRequest>)
    requires CheckpointsCoherent(d)
    requires k in d.reviews ==> IsLatest(d.checkpoints, RunKey(k.tenantId, d.reviews[k].request.runId), latest)
    ensures var d' := Decide(d, k, latest, v, o).0;
            && CheckpointsCoherent(d')
            && (forall c :: c in d.checkpoints ==> c in d'.checkpoints && d'.checkpoints[c] == d.checkpoints[c])
  {
    DecisionAddsCheckpoint(d, k, latest, v, o);
    var d' := Decide(d, k, latest, v, o).0;
    if d'.checkpoints != d.checkpoints {
      ResumedIsCoherent(Payload(latest), o);
    }
  }

  lemma WritesKeepReviews(d: Desk, d': Desk, k: ReviewKey, v: Ruling, o: Option<OverrideRequest>)
    requires OverridesOwned(d) && Writes(d, d', k, v, o)
    ensures OverridesOwned(d')
    ensures forall j :: j in d.reviews ==> j in d'.reviews && d'.reviews[j].request == d.reviews[j].request
    ensures forall j :: Decided(d, j) ==> d'.reviews[j] == d.reviews[j] && SameOverride(d, d', j)
  {
    forall j | Decided(d, j) ensures SameOverride(d, d', j) {
      assert OverrideKey(j.tenantId, d.reviews[j].ruling.value.key) != OverrideKey(k.tenantId, v.key);
    }
  }

  lemma RuleKeeps(d: Desk, k: ReviewKey, latest: Option<Saved>, v: Ruling, o: Option<OverrideRequest>)
    requires Sound(d) && Enabled(d, Rule(k, latest, v, o))
    ensures var d' := Decide(d, k, latest, v, o).0; Sound(d') && Keeps(d, d')
  {
    DecisionWrites(d, k, latest, v, o);
    DecisionOnTable(d, k, latest, v, o);
    DecisionOnCheckpoints(d, k, latest, v, o);
    var d' := Decide(d, k, latest, v, o).0;
    if d' != d {
      WritesKeepReviews(d, d', k, v, o);
    }
  }

  lemma RunOpKeeps(d: Desk, op: Fencing.Op)
    requires Sound(d) && Fencing.Enabled(d.table, op)
    ensures var d' := d.(table := Fencing.Step(d.table, op)); Sound(d') && Keeps(d, d')
  {
    forall r | r in d.table.runs
      ensures r in Fencing.Step(d.table, op).runs && Fencing.Step(d.table, op).runs[r].caseId == d.table.runs[r].caseId
    {
      Fencing.StepAdvancesRun(d.table, op, r);
    }
    CasesStay(d.table, op);
  }

  lemma CasesStay(t: Table, op: Fencing.Op)
    requires Fencing.Enabled(t, op)
    ensures forall c :: c in t.cases ==> c in Fencing.Step(t, op).cases
  {
  }

  lemma SaveKeeps(d: Desk, k: CheckpointKey, c: Checkpoint)
    requires Sound(d) && k !in d.checkpoints && c.version == k.version && Coherent(c)
    ensures var d' := d.(checkpoints := d.checkpoints[k := c]); Sound(d') && Keeps(d, d')
  {
  }

  lemma SubmitKeeps(d: Desk, k: ReviewKey, r: Request)
    requires Sound(d)
    ensures var d' := Reviews.Submit(d, k, r).0; Sound(d') && Keeps(d, d')
  {
    var d' := Reviews.Submit(d, k, r).0;
    assert d' == d || (k !in d.reviews && d' == d.(reviews := d.reviews[k := ReviewRow(r, None)]));
    if d' != d {
      NewReviewKeeps(d, k, ReviewRow(r, None));
    }
  }

  lemma NewReviewKeeps(d: Desk, k: ReviewKey, row: ReviewRow)
    requires Sound(d) && k !in d.reviews
    ensures var d' := d.(reviews := d.reviews[k := row]); Sound(d') && Keeps(d, d')
  {
  }

  lemma StepKeeps(d: Desk, op: Op)
    requires Sound(d) && Enabled(d, op)
    ensures Sound(Step(d, op)) && Keeps(d, Step(d, op))
  {
    match op
    case RunOp(o) => RunOpKeeps(d, o);
    case SavePoint(k, c) => SaveKeeps(d, k, c);
    case Submit(k, r) => SubmitKeeps(d, k, r);
    case Rule(k, latest, v, o) => RuleKeeps(d, k, latest, v, o);
  }

  lemma KeepsTransitive(a: Desk, b: Desk, c: Desk)
    requires Keeps(a, b) && Keeps(b, c)
    ensures Keeps(a, c)
  {
    forall k | Decided(a, k) ensures c.reviews[k] == a.reviews[k] && SameOverride(a, c, k) {
      assert Decided(b, k) && SameOverride(a, b, k) && SameOverride(b, c, k);
    }
  }

  lemma {:induction false} HistoryKeeps(ds: seq<Desk>, ops: seq<Op>, i: int, j: int)
    requires History(ds, ops) && Sound(ds[0]) && 0 <= i <= j <= |ops|
    ensures Sound(ds[i]) && Sound(ds[j]) && Keeps(ds[i], ds[j])
    decreases j
  {
    if i < j {
      HistoryKeeps(ds, ops, i, j - 1);
      StepKeeps(ds[j - 1], ops[j - 1]);
      KeepsTransitive(ds[i], ds[j - 1], ds[j]);
    } else if j != 0 {
      HistoryKeeps(ds, ops, j - 1, j - 1);
      StepKeeps(ds[j - 1], ops[j - 1]);
    }
  }

  // ---------------------------------------------------------------- main results

  /** Right after a first decision the stored override is the one that was given. */
  lemma DecisionStoresOverride(d: Desk, k: ReviewKey, latest: Option<Saved>, v: Ruling, o: Option<OverrideRequest>)
    requires Sound(d) && k in d.reviews && d.reviews[k].ruling.None? && Decide(d, k, latest, v, o).1.Ok?
    ensures var d' := Decide(d, k, latest, v, o).0;
            Decided(d', k) && d'.reviews[k].ruling == Some(v) && StoredOverride(d', k.tenantId, v.key) == o
  {
  }

  /** Exactly once: the decision made at step `i` is the answer to every identical click at any
      later time, and none of them moves the run, though it may be in REVIEW again. */
  lemma ReplaysAnswerForever(ds: seq<Desk>, ops: seq<Op>, i: int, j: int, latest: Option<Saved>)
    requires History(ds, ops) && Sound(ds[0]) && 0 <= i < j <= |ops| && ops[i].Rule?
    requires ops[i].key in ds[i].reviews && ds[i].reviews[ops[i].key].ruling.None?
    requires Decide(ds[i], ops[i].key, ops[i].latest, ops[i].ruling, ops[i].addition).1.Ok?
    ensures Decide(ds[j], ops[i].key, latest, ops[i].ruling, ops[i].addition)
            == (ds[j], Decide(ds[i], ops[i].key, ops[i].latest, ops[i].ruling, ops[i].addition).1)
  {
    var k, v, o := ops[i].key, ops[i].ruling, ops[i].addition;
    HistoryKeeps(ds, ops, 0, i);
    DecisionStoresOverride(ds[i], k, ops[i].latest, v, o);
    DecisionWrites(ds[i], k, ops[i].latest, v, o);
    FirstDecisionRoutes(ds[i], k, ops[i].latest, v, o);
    DecisionOnTable(ds[i], k, ops[i].latest, v, o);
    HistoryKeeps(ds, ops, i + 1, j);
    ReplayFinds(ds[i + 1], ds[j], k, v, o, latest);
  }

  lemma ReplayFinds(d: Desk, d': Desk, k: ReviewKey, v: Ruling, o: Option<OverrideRequest>, latest: Option<Saved>)
    requires Decided(d, k) && d.reviews[k].ruling == Some(v) && StoredOverride(d, k.tenantId, v.key) == o
    requires RunOf(d, k.tenantId, d.reviews[k].request).Ok? && Keeps(d, d')
    ensures Decide(d', k, latest, v, o) == (d', Ok(d.reviews[k]))
  {
  }

  /** What stands behind the release of a run that had stopped on a budget or deadline. */
  ghost predicate PaidFor(d: Desk, k: ReviewKey, run: RunKey, latest: Checkpoint, v: Ruling,
      o: Option<OverrideRequest>)
  {
    && o.Some? && latest.routeReason.Some? && RaisesExhausted(latest.routeReason.value, o.value)
    && CheckpointKey(run, latest.version + 1) in d.checkpoints
    && d.checkpoints[CheckpointKey(run, latest.version + 1)] == Resumed(latest, o.value)
    && Decided(d, k) && d.reviews[k].ruling == Some(v) && StoredOverride(d, k.tenantId, v.key) == o
  }

  lemma PaidForStays(d: Desk, d': Desk, k: ReviewKey, run: RunKey, latest: Checkpoint, v: Ruling,
      o: Option<OverrideRequest>)
    requires PaidFor(d, k, run, latest, v, o) && Keeps(d, d')
    ensures PaidFor(d', k, run, latest, v, o)
  {
    assert SameOverride(d, d', k);
  }

  ghost predicate Releases(d: Desk, d': Desk, run: RunKey) {
    && run in d.table.runs && d.table.runs[run].state.Review?
    && run in d'.table.runs && d'.table.runs[run].state.Ready?
  }

  lemma ReleaseIsDecision(d: Desk, k: ReviewKey, latest: Option<Saved>, v: Ruling,
      o: Option<OverrideRequest>, run: RunKey)
    requires Releases(d, Decide(d, k, latest, v, o).0, run)
    ensures k in d.reviews && d.reviews[k].ruling.None? && run == RunKey(k.tenantId, d.reviews[k].request.runId)
    ensures v.resume && Decide(d, k, latest, v, o).1.Ok?
  {
    DecisionWrites(d, k, latest, v, o);
    FirstDecisionRoutes(d, k, latest, v, o);
    var own := RunKey(k.tenantId, d.reviews[k].request.runId);
    OtherRunStays(d.table.runs, Decide(d, k, latest, v, o).0.table.runs, own, run);
  }

  lemma OtherRunStays(runs: map<RunKey, Run>, runs': map<RunKey, Run>, own: RunKey, run: RunKey)
    requires runs' - {own} == runs - {own}
    ensures run != own && run in runs ==> run in runs' && runs'[run] == runs[run]
  {
    assert run != own && run in runs ==> run in runs - {own} && (runs - {own})[run] == runs[run];
    assert run in runs' - {own} ==> (runs' - {own})[run] == runs'[run];
  }

  /** A transition of the run itself, which asks for no review. */
  predicate IsReadied(op: Op, run: RunKey) {
    op.RunOp? && op.op.TransitionRun? && op.op.claim.Key() == run && op.op.move.target.Ready?
  }

  /** A run leaves REVIEW for READY by a decision on it or by a bare transition, which touches
      nothing else. */
  lemma ReleaseIsEither(d: Desk, op: Op, run: RunKey)
    requires Enabled(d, op) && Releases(d, Step(d, op), run)
    ensures op.Rule? || IsReadied(op, run)
    ensures IsReadied(op, run) ==> Step(d, op) == d.(table := Step(d, op).table)
  {
  }

  lemma LatestIsUnique(checkpoints: map<CheckpointKey, Checkpoint>, run: RunKey, a: Option<Saved>, b: Option<Saved>)
    requires IsLatest(checkpoints, run, a) && IsLatest(checkpoints, run, b)
    ensures a == b
  {
  }

  /** What a release costs a run that stopped on a budget or deadline. Exactly when it is a
      decision, its latest checkpoint is raised, by an override that is on record with the raise
      in every later state. The only other way out is a bare transition, and it raises nothing. */
  lemma EveryReleaseIsPaidFor(ds: seq<Desk>, ops: seq<Op>, i: int, j: int, run: RunKey, latest: Option<Saved>)
    requires History(ds, ops) && Sound(ds[0]) && 0 <= i < j <= |ops| && Releases(ds[i], ds[i + 1], run)
    requires IsLatest(ds[i].checkpoints, run, latest) && NeedsOverride(Payload(latest))
    ensures ops[i].Rule? || IsReadied(ops[i], run)
    ensures ops[i].Rule? ==>
              PaidFor(ds[j], ops[i].key, run, latest.value.payload, ops[i].ruling, ops[i].addition)
    ensures ops[i].Rule? <==> CheckpointKey(run, latest.value.version + 1) in ds[i + 1].checkpoints
    ensures !ops[i].Rule? ==> ds[i + 1] == ds[i].(table := ds[i + 1].table)
  {
    ReleaseIsEither(ds[i], ops[i], run);
    if ops[i].Rule? {
      DecisionPays(ds, ops, i, j, run, latest);
    }
  }

  lemma DecisionPays(ds: seq<Desk>, ops: seq<Op>, i: int, j: int, run: RunKey, latest: Option<Saved>)
    requires History(ds, ops) && Sound(ds[0]) && 0 <= i < j <= |ops| && ops[i].Rule?
    requires Releases(ds[i], ds[i + 1], run)
    requires IsLatest(ds[i].checkpoints, run, latest) && NeedsOverride(Payload(latest))
    ensures PaidFor(ds[j], ops[i].key, run, latest.value.payload, ops[i].ruling, ops[i].addition)
    ensures CheckpointKey(run, latest.value.version + 1) in ds[i + 1].checkpoints
  {
    var k, v, o := ops[i].key, ops[i].ruling, ops[i].addition;
    ReleaseIsDecision(ds[i], k, ops[i].latest, v, o, run);
    LatestIsUnique(ds[i].checkpoints, run, ops[i].latest, latest);
    HistoryKeeps(ds, ops, 0, i);
    NoFreeResume(ds[i], k, latest, v, o);
    DecisionStoresOverride(ds[i], k, latest, v, o);
    HistoryKeeps(ds, ops, i + 1, j);
    PaidForStays(ds[i + 1], ds[j], k, run, latest.value.payload, v, o);
  }

  const TO_READY := Move(Ready, None, None, None, None, None)

  /** `transition` asks for the execution right only while the run is RUNNING. So any claim on a
      run in REVIEW, under whatever token, can make it READY, and nothing else changes. */
  lemma AnyClaimReleases(d: Desk, claim: Claim)
    requires claim.Case() in d.table.cases && claim.Key() in d.table.runs
    requires var run := d.table.runs[claim.Key()];
             run.caseId == claim.caseId && run.state.Review? && ValidRecord(claim.runId, run)
    ensures var op := RunOp(Fencing.TransitionRun(claim, TO_READY));
            && Enabled(d, op) && Releases(d, Step(d, op), claim.Key())
            && Step(d, op) == d.(table := Step(d, op).table)
  {
  }

  /** It happens: a run that ran out of model calls is READY again after one such step, with no
      review, no override and the budget it had. */
  lemma FreeRelease() returns (d: Desk, op: Op, run: RunKey, latest: Option<Saved>)
    ensures Sound(d) && Enabled(d, op) && Releases(d, Step(d, op), run)
    ensures IsLatest(d.checkpoints, run, latest) && NeedsOverride(Payload(latest))
    ensures Step(d, op).reviews == map[] && Step(d, op).overrides == map[]
    ensures Step(d, op).checkpoints == d.checkpoints
  {
    var scope := CaseKey("t", "c");
    run := RunKey("t", "r");
    var stopped := Checkpoint(scope, "r", 1, 1, None, None, [], [], Budget(0, 1, 1, 1), ReviewStep,
                              Some(ModelBudgetExhausted), None, None, None, None, None, None);
    latest := Some(Saved(1, stopped));
    d := Desk(Table(0, map[scope := 1], map[run := Run("c", None, 1, Review, 1, None, None, None, None, None)]),
              map[], map[], map[CheckpointKey(run, 1) := stopped]);
    var claim := Claim("t", "c", "r", "w", 1);
    op := RunOp(Fencing.TransitionRun(claim, TO_READY));
    AnyClaimReleases(d, claim);
  }

  /** Each review is resolved at most once in a history. */
  lemma ResolvedAtMostOnce(ds: seq<Desk>, ops: seq<Op>, i: int, j: int)
    requires History(ds, ops) && Sound(ds[0]) && 0 <= i < j < |ops|
    requires ops[i].Rule? && ops[j].Rule? && ops[i].key == ops[j].key && ds[i + 1] != ds[i]
    ensures ds[j + 1] == ds[j]
  {
    HistoryKeeps(ds, ops, 0, i);
    DecisionWrites(ds[i], ops[i].key, ops[i].latest, ops[i].ruling, ops[i].addition);
    assert Decided(ds[i + 1], ops[i].key);
    HistoryKeeps(ds, ops, i + 1, j);
    ReplayNeverRoutes(ds[j], ops[j].key, ops[j].latest, ops[j].ruling, ops[j].addition);
  }
}
