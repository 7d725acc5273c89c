/** Fencing safety and refinement of the pure guards, over every history of the run table. */
module Fencing {
  import opened Common
  import opened Runtime
  import opened Runs

  // ---------------------------------------------------------------- histories

  datatype Op =
    | Create(key: RunKey, run: Run)
    | ClaimByKey(key: RunKey, owner: string, lease: int)
    | Dispatch(key: RunKey, owner: string, lease: int)
    | RenewLease(claim: Claim, lease: int)
    | TransitionRun(claim: Claim, move: Move)
    | Settle(key: RunKey, caseId: string, waitId: string, generation: int)
    | Resolve(key: RunKey, caseId: string, resume: bool)
    | SetCase(caseKey: CaseKey, version: int)
    | Tick(elapsed: int)

  ghost predicate Enabled(t: Table, op: Op) {
    match op
    case Create(k, r) => ValidRecord(k.runId, r)
    case Dispatch(k, _, _) => k in t.runs && Dispatchable(t.runs[k], t.now)
    case Tick(elapsed) => 0 <= elapsed
    case _ => true
  }

  ghost function Step(t: Table, op: Op): Table
    requires Enabled(t, op)
  {
    match op
    case Create(k, r) => CreateRun(t, k, r).0
    case ClaimByKey(k, owner, lease) => ClaimRun(t, k, owner, lease).0
    case Dispatch(k, owner, lease) => DispatchRun(t, k, owner, lease).0
    case RenewLease(claim, lease) => Renew(t, claim, lease).0
    case TransitionRun(claim, m) => Transition(t, claim, m).0
    case Settle(k, caseId, waitId, generation) => SettleWait(t, k, caseId, waitId, generation)
    case Resolve(k, caseId, resume) => ResolveReview(t, k, caseId, resume).0
    case SetCase(c, version) => t.(cases := t.cases[c := version])
    case Tick(elapsed) => t.(now := t.now + elapsed)
  }

  /** The claim a step hands out, if any. */
  ghost function Issued(t: Table, op: Op): Option<Claim>
    requires Enabled(t, op)
  {
    match op
    case ClaimByKey(k, owner, lease) =>
      (match ClaimRun(t, k, owner, lease).1 case Ok(c) => Some(c) case Err(_) => None)
    case Dispatch(k, owner, lease) =>
      (match DispatchRun(t, k, owner, lease).1 case Ok(c) => Some(c) case Err(_) => None)
    case _ => None
  }

  ghost predicate History(ts: seq<Table>, ops: seq<Op>) {
    && |ts| == |ops| + 1
    && forall i {:trigger ops[i]} :: 0 <= i < |ops| ==> Enabled(ts[i], ops[i]) && ts[i + 1] == Step(ts[i], ops[i])
  }

  lemma HistorySegment(ts: seq<Table>, ops: seq<Op>, a: int, b: int)
    requires History(ts, ops) && 0 <= a <= b <= |ops|
    ensures History(ts[a..b + 1], ops[a..b])
    ensures ts[a..b + 1][0] == ts[a] && ts[a..b + 1][b - a] == ts[b]
  {
  }

  // ---------------------------------------------------------------- one step, one run

  /** How a step may change a run row, seen at the instant `now` of the step. */
  ghost predicate RunAdvances(a: Run, b: Run, now: int) {
    && a.caseId == b.caseId
    && a.fencingToken <= b.fencingToken
    && (a.fencingToken < b.fencingToken ==> b.state.Running? && Dispatchable(a, now))
    && (a.fencingToken == b.fencingToken && b.state.Running? ==>
          && a.state.Running? && a.leaseOwner == b.leaseOwner
          && (a.leaseUntil == b.leaseUntil || (a.leaseUntil.Some? && now < a.leaseUntil.value)))
    && (IsTerminal(a.state) ==> a == b)
    && LegalEdge(a, b, now)
  }

  /** The transition table, apart from reclaiming an expired lease and from dispatching a due
      retry, which passes through READY inside one transaction. */
  ghost predicate LegalEdge(a: Run, b: Run, now: int) {
    || a.state == b.state
    || b.state in Successors(a.state)
    || (RetryDue(a, now) && Ready in Successors(a.state) && b.state in Successors(Ready))
  }

  lemma StepAdvancesRun(t: Table, op: Op, k: RunKey)
    requires Enabled(t, op) && k in t.runs
    ensures k in Step(t, op).runs && RunAdvances(t.runs[k], Step(t, op).runs[k], t.now)
    ensures t.now <= Step(t, op).now
  {
    match op
    case TransitionRun(claim, m) => TransitionFollowsTable(t, claim, m);
    case _ =>
  }

  lemma TransitionFollowsTable(t: Table, claim: Claim, m: Move)
    ensures var (t', r) := Transition(t, claim, m);
            && t'.now == t.now && t'.cases == t.cases
            && (r.Err? ==> t' == t)
            && (r.Ok? ==> claim.Key() in t.runs && t' == WithRun(t, claim.Key(), r.value)
                          && ValidRecord(claim.runId, r.value)
                          && RunAdvances(t.runs[claim.Key()], r.value, t.now)
                          && (t.runs[claim.Key()].state.Running? ==> HoldsRight(t, claim)))
  {
  }

  lemma {:induction false} RunsAdvance(ts: seq<Table>, ops: seq<Op>, k: RunKey)
    requires History(ts, ops) && k in ts[0].runs
    ensures k in ts[|ops|].runs && ts[0].now <= ts[|ops|].now
    ensures ts[0].runs[k].fencingToken <= ts[|ops|].runs[k].fencingToken
    ensures IsTerminal(ts[0].runs[k].state) ==> ts[|ops|].runs[k] == ts[0].runs[k]
  {
    var n := |ops|;
    if n != 0 {
      RunsAdvance(ts[..n], ops[..n - 1], k);
      StepAdvancesRun(ts[n - 1], ops[n - 1], k);
    }
  }

  // ---------------------------------------------------------------- fencing

  /** Handing out a claim stamps the run with a token one above every earlier one. */
  lemma IssueStampsToken(t: Table, op: Op)
    requires Enabled(t, op) && Issued(t, op).Some?
    ensures var c := Issued(t, op).value;
            && c.Key() in t.runs && c.Key() in Step(t, op).runs
            && c.fencingToken == t.runs[c.Key()].fencingToken + 1 == Step(t, op).runs[c.Key()].fencingToken
  {
  }

  /** Tokens issued on one run strictly increase along every history, so none is issued twice. */
  lemma TokensStrictlyIncrease(ts: seq<Table>, ops: seq<Op>, i: int, j: int)
    requires History(ts, ops) && 0 <= i < j < |ops|
    requires Issued(ts[i], ops[i]).Some? && Issued(ts[j], ops[j]).Some?
    requires Issued(ts[i], ops[i]).value.Key() == Issued(ts[j], ops[j]).value.Key()
    ensures Issued(ts[i], ops[i]).value.fencingToken < Issued(ts[j], ops[j]).value.fencingToken
  {
    IssueStampsToken(ts[i], ops[i]);
    IssueStampsToken(ts[j], ops[j]);
    HistorySegment(ts, ops, i + 1, j);
    RunsAdvance(ts[i + 1..j + 1], ops[i + 1..j], Issued(ts[i], ops[i]).value.Key());
  }

  /** At most one claim on a run is valid at any instant. */
  lemma OneHolder(t: Table, a: Claim, b: Claim)
    requires a.Key() == b.Key() && HoldsRight(t, a) && HoldsRight(t, b)
    ensures a == b
  {
  }

  /** The fence is a one-way door: a claim that does not hold the right, on a run whose token
      has reached it, never holds the right again. */
  lemma {:induction false} RightLostForever(ts: seq<Table>, ops: seq<Op>, c: Claim)
    requires History(ts, ops) && c.Key() in ts[0].runs
    requires c.fencingToken <= ts[0].runs[c.Key()].fencingToken && !HoldsRight(ts[0], c)
    ensures c.Key() in ts[|ops|].runs && c.fencingToken <= ts[|ops|].runs[c.Key()].fencingToken
    ensures !HoldsRight(ts[|ops|], c)
  {
    var n := |ops|;
    if n != 0 {
      RightLostForever(ts[..n], ops[..n - 1], c);
      StepAdvancesRun(ts[n - 1], ops[n - 1], c.Key());
    }
  }

  /** How any stretch of steps may change a run, as far as its fence is concerned. */
  ghost predicate RunFollows(r: Run, r': Run) {
    && r'.caseId == r.caseId && r.fencingToken <= r'.fencingToken
    && (r.fencingToken == r'.fencingToken && r'.state.Running? ==> r.state.Running? && r.leaseOwner == r'.leaseOwner)
  }

  ghost predicate Follows(t: Table, t': Table) {
    forall k :: k in t.runs ==> k in t'.runs && RunFollows(t.runs[k], t'.runs[k])
  }

  lemma StepFollows(t: Table, op: Op)
    requires Enabled(t, op)
    ensures Follows(t, Step(t, op))
  {
    forall k | k in t.runs ensures k in Step(t, op).runs && RunFollows(t.runs[k], Step(t, op).runs[k]) {
      StepAdvancesRun(t, op, k);
    }
  }

  ghost predicate Linked(ts: seq<Table>, n: int)
    requires 0 < n < |ts|
  {
    Follows(ts[n - 1], ts[n])
  }

  ghost predicate Chain(ts: seq<Table>) {
    forall n :: 0 < n < |ts| ==> Linked(ts, n)
  }

  lemma FollowsTransitive(a: Table, b: Table, c: Table)
    requires Follows(a, b) && Follows(b, c)
    ensures Follows(a, c)
  {
  }

  lemma {:induction false} ChainFollows(ts: seq<Table>, i: int, j: int)
    requires Chain(ts) && 0 <= i <= j < |ts|
    ensures Follows(ts[i], ts[j])
    decreases j
  {
    if i < j {
      ChainFollows(ts, i, j - 1);
      assert Linked(ts, j);
      FollowsTransitive(ts[i], ts[j - 1], ts[j]);
    }
  }

  /** The run has moved past the claim's token. */
  ghost predicate Superseded(t: Table, c: Claim) {
    c.Key() in t.runs && c.fencingToken < t.runs[c.Key()].fencingToken
  }

  lemma SupersededHasNoRight(t: Table, c: Claim)
    requires Superseded(t, c)
    ensures !HoldsRight(t, c)
  {
  }

  /** A claim issued before another one on the same run is superseded right after it. */
  lemma IssueSupersedes(t: Table, op: Op, later: Table, op': Op)
    requires Enabled(t, op) && Issued(t, op).Some? && Enabled(later, op') && Issued(later, op').Some?
    requires Issued(t, op).value.Key() == Issued(later, op').value.Key() && Follows(Step(t, op), later)
    ensures Superseded(Step(later, op'), Issued(t, op).value)
  {
    IssueStampsToken(t, op);
    IssueStampsToken(later, op');
  }

  /** Whatever else happens between the two and afterwards: an older claim on a run stays
      superseded once a newer one is issued. */
  lemma ChainSupersedes(ts: seq<Table>, i: int, op: Op, j: int, op': Op, n: int)
    requires Chain(ts) && 0 <= i < j < n < |ts|
    requires Enabled(ts[i], op) && Issued(ts[i], op).Some? && ts[i + 1] == Step(ts[i], op)
    requires Enabled(ts[j], op') && Issued(ts[j], op').Some? && ts[j + 1] == Step(ts[j], op')
    requires Issued(ts[i], op).value.Key() == Issued(ts[j], op').value.Key()
    ensures Superseded(ts[n], Issued(ts[i], op).value)
  {
    ChainFollows(ts, i + 1, j);
    IssueSupersedes(ts[i], op, ts[j], op');
    ChainFollows(ts, j + 1, n);
  }

  /** Once a newer claim on the same run has been issued, the older one is refused everywhere
      and for ever: no renewal, and no transition while the run is RUNNING. */
  lemma NewerClaimFencesOlder(ts: seq<Table>, ops: seq<Op>, i: int, j: int)
    requires History(ts, ops) && 0 <= i < j < |ops|
    requires Issued(ts[i], ops[i]).Some? && Issued(ts[j], ops[j]).Some?
    requires Issued(ts[i], ops[i]).value.Key() == Issued(ts[j], ops[j]).value.Key()
    ensures var old', last := Issued(ts[i], ops[i]).value, ts[|ops|];
            && !HoldsRight(last, old')
            && (forall lease :: Renew(last, old', lease) == (last, Err(LeaseLost)))
            && (forall m :: old'.Key() in last.runs && last.runs[old'.Key()].state.Running?
                  ==> Transition(last, old', m).0 == last && Transition(last, old', m).1.Err?)
  {
    TokensStrictlyIncrease(ts, ops, i, j);
    IssueStampsToken(ts[j], ops[j]);
    HistorySegment(ts, ops, j + 1, |ops|);
    var old', last := Issued(ts[i], ops[i]).value, ts[|ops|];
    RightLostForever(ts[j + 1..|ops| + 1], ops[j + 1..|ops|], old');
    NoRightNoEffect(last, old');
  }

  lemma NoRightNoEffect(t: Table, c: Claim)
    requires !HoldsRight(t, c)
    ensures forall lease :: Renew(t, c, lease) == (t, Err(LeaseLost))
    ensures forall m :: c.Key() in t.runs && t.runs[c.Key()].state.Running?
              ==> Transition(t, c, m).0 == t && Transition(t, c, m).1.Err?
  {
  }

  /** A fresh claim holds the right until its lease runs out. */
  lemma IssuedClaimHolds(t: Table, op: Op)
    requires Enabled(t, op) && Issued(t, op).Some? && op.lease > 0
    ensures HoldsRight(Step(t, op), Issued(t, op).value)
  {
  }

  // ---------------------------------------------------------------- refinement

  ghost predicate AllValid(t: Table) {
    forall k :: k in t.runs ==> ValidRecord(k.runId, t.runs[k])
  }

  /** Every reachable row satisfies the pure record validator. */
  lemma StepKeepsRecordsValid(t: Table, op: Op)
    requires AllValid(t) && Enabled(t, op)
    ensures AllValid(Step(t, op))
  {
    match op
    case ClaimByKey(k, owner, lease) =>
      if ClaimRun(t, k, owner, lease).0 != t { LeaseKeepsValid(t, k, t.runs[k], owner, lease); }
    case Dispatch(k, owner, lease) =>
      var r := t.runs[k];
      LeaseKeepsValid(t, k, if r.state.RetryAt? then r.(state := Ready, availableAt := None) else r, owner, lease);
    case TransitionRun(claim, m) => TransitionFollowsTable(t, claim, m);
    case _ =>
  }

  lemma LeaseKeepsValid(t: Table, k: RunKey, r: Run, owner: string, lease: int)
    requires AllValid(t) && ValidRecord(k.runId, r) && (r.state.Ready? || r.state.Running?)
    ensures AllValid(TakeLease(t, k, r, owner, lease).0)
  {
  }

  lemma {:induction false} ReachableRowsAreCoherent(ts: seq<Table>, ops: seq<Op>)
    requires History(ts, ops) && AllValid(ts[0])
    ensures AllValid(ts[|ops|])
  {
    var n := |ops|;
    if n != 0 {
      ReachableRowsAreCoherent(ts[..n], ops[..n - 1]);
      StepKeepsRecordsValid(ts[n - 1], ops[n - 1]);
    }
  }

  /** `claim` accepts exactly what `next_fencing_token` accepts, and issues its token. */
  lemma ClaimRefinesGuard(t: Table, k: RunKey, owner: string, lease: int)
    requires k in t.runs && ValidRecord(k.runId, t.runs[k]) && IsIdentifier(owner)
    ensures var (t', r), guard := ClaimRun(t, k, owner, lease), NextFencingToken(t.runs[k], t.now);
            && (r.Ok? <==> guard.Ok?)
            && (r.Ok? ==> r.value.fencingToken == guard.value
                          && t'.runs[k].fencingToken == guard.value && t'.runs[k].state.Running?)
  {
  }

  /** `renew` accepts exactly what `assert_execution_right` accepts. */
  lemma RenewRefinesGuard(t: Table, claim: Claim, lease: int)
    requires claim.Key() in t.runs
    ensures Renew(t, claim, lease).1.Ok? <==> AssertExecutionRight(claim.Key(), t.runs[claim.Key()], claim, t.now).Ok?
  {
  }

  /** `transition` accepts exactly the legal edges of a coherent row: out of RUNNING only under
      the execution right, with the wait or retry binding its target needs and no other. */
  lemma TransitionRefinesGuards(t: Table, claim: Claim, m: Move)
    requires AllValid(t) && claim.Key() in t.runs && t.runs[claim.Key()].caseId == claim.caseId
    requires claim.Case() in t.cases && VersionsAgree(m)
    requires ExpectedVersion(m).Some? ==> ExpectedVersion(m).value == t.cases[claim.Case()]
    ensures var previous := t.runs[claim.Key()];
            Transition(t, claim, m).1.Ok? <==>
              && !m.target.Running? && ValidateTransition(previous.state, m.target).Ok?
              && (previous.state.Running? ==> AssertExecutionRight(claim.Key(), previous, claim, t.now).Ok?)
              && ValidRecord(claim.runId, Moved(previous, m))
  {
  }
}
