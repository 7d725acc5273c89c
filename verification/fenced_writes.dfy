/** Attempt results and checkpoints: rows a worker may write only under a live claim. */
module FencedWrites {
  import opened Common
  import opened Runtime
  import opened Runs
  import Fencing

  datatype AttemptStatus = Started | Succeeded | Failed | Unknown

  datatype AttemptKey = AttemptKey(tenantId: string, runId: string, attemptId: string)

  datatype Attempt = Attempt(caseId: string, stepId: string, fencingToken: int, status: AttemptStatus)

  datatype CheckpointKey = CheckpointKey(tenantId: string, runId: string, version: int)

  datatype Checkpoint = Checkpoint(caseId: string, savedFencingToken: int, payload: string)

  datatype Store = Store(table: Table, attempts: map<AttemptKey, Attempt>, checkpoints: map<CheckpointKey, Checkpoint>)

  /** The caller's copy of an attempt names the row and carries the fence it started under. */
  function SetStatus(s: Store, k: AttemptKey, a: Attempt, status: AttemptStatus, claim: Claim)
    : (Store, Result<Attempt>)
  {
    if k.tenantId != claim.tenantId || a.caseId != claim.caseId || k.runId != claim.runId
       || a.fencingToken != claim.fencingToken then (s, Err(LeaseLost))
    else if status.Started? then (s, Err(InvalidInput))
    else if !HoldsRight(s.table, claim) then (s, Err(LeaseLost))
    else if k !in s.attempts || s.attempts[k].caseId != a.caseId || s.attempts[k].stepId != a.stepId
    then (s, Err(Forbidden))
    else if !s.attempts[k].status.Started? then (s, Err(Conflict))
    else
      var finished := s.attempts[k].(status := status);
      (s.(attempts := s.attempts[k := finished]), Ok(finished))
  }

  /** Checkpoints are only ever inserted; a version already taken is a key violation. */
  function Save(s: Store, k: CheckpointKey, c: Checkpoint, claim: Claim): (Store, Result<()>) {
    if !HoldsRight(s.table, claim) then (s, Err(LeaseLost))
    else if k.tenantId != claim.tenantId || c.caseId != claim.caseId || k.runId != claim.runId then (s, Err(LeaseLost))
    else if c.savedFencingToken != claim.fencingToken then (s, Err(LeaseLost))
    else if k in s.checkpoints then (s, Err(Database))
    else (s.(checkpoints := s.checkpoints[k := c]), Ok(()))
  }

  class WorkRepository {
    var now: int
    var cases: map<CaseKey, int>
    var runs: map<RunKey, Run>
    var attempts: map<AttemptKey, Attempt>
    var checkpoints: map<CheckpointKey, Checkpoint>

    constructor (now: int)
      ensures View() == Store(Table(now, map[], map[]), map[], map[])
    {
      this.now := now;
      cases, runs, attempts, checkpoints := map[], map[], map[], map[];
    }

    function View(): Store
      reads this
    {
      Store(Table(now, cases, runs), attempts, checkpoints)
    }

    /** The locked row check, then the lease test on the database clock. */
    method LeaseIsLive(claim: Claim) returns (live: bool)
      ensures live == HoldsRight(View().table, claim)
    {
      var k := claim.Key();
      if k !in runs || runs[k].caseId != claim.caseId || !runs[k].state.Running?
         || runs[k].leaseOwner != Some(claim.owner) || runs[k].fencingToken != claim.fencingToken {
        return false;
      }
      return runs[k].leaseUntil.Some? && runs[k].leaseUntil.value > now;
    }

    method Finish(k: AttemptKey, a: Attempt, status: AttemptStatus, claim: Claim) returns (r: Result<Attempt>)
      modifies this`attempts
      ensures (View(), r) == SetStatus(old(View()), k, a, status, claim)
    {
      if (k.tenantId, a.caseId, k.runId) != (claim.tenantId, claim.caseId, claim.runId)
         || a.fencingToken != claim.fencingToken {
        return Err(LeaseLost);
      }
      if status.Started? {
        return Err(InvalidInput);
      }
      var live := LeaseIsLive(claim);
      if !live {
        return Err(LeaseLost);
      }
      if k !in attempts || attempts[k].caseId != a.caseId || attempts[k].stepId != a.stepId {
        return Err(Forbidden);
      }
      if attempts[k].status != Started {
        return Err(Conflict);
      }
      attempts := attempts[k := attempts[k].(status := status)];
      return Ok(attempts[k]);
    }

    method SaveCheckpoint(k: CheckpointKey, c: Checkpoint, claim: Claim) returns (r: Result<()>)
      modifies this`checkpoints
      ensures (View(), r) == Save(old(View()), k, c, claim)
    {
      var live := LeaseIsLive(claim);
      if !live || (k.tenantId, c.caseId, k.runId) != (claim.tenantId, claim.caseId, claim.runId) {
        return Err(LeaseLost);
      }
      if c.savedFencingToken != claim.fencingToken {
        return Err(LeaseLost);
      }
      if k in checkpoints {
        return Err(Database);
      }
      checkpoints := checkpoints[k := c];
      return Ok(());
    }
  }

  // ---------------------------------------------------------------- histories

  datatype Op =
    | RunOp(op: Fencing.Op)
    | Start(key: AttemptKey, attempt: Attempt)
    | Finish(key: AttemptKey, attempt: Attempt, status: AttemptStatus, claim: Claim)
    | SaveAt(point: CheckpointKey, checkpoint: Checkpoint, claim: Claim)

  ghost predicate Enabled(s: Store, op: Op) { op.RunOp? ==> Fencing.Enabled(s.table, op.op) }

  ghost function Step(s: Store, op: Op): Store
    requires Enabled(s, op)
  {
    match op
    case RunOp(o) => s.(table := Fencing.Step(s.table, o))
    case Start(k, a) => if k in s.attempts then s else s.(attempts := s.attempts[k := a])
    case Finish(k, a, status, claim) => SetStatus(s, k, a, status, claim).0
    case SaveAt(k, c, claim) => Save(s, k, c, claim).0
  }

  /** The claim behind a step that wrote under the fence: it renewed, left RUNNING, finished an
      attempt or saved a checkpoint. */
  ghost function WroteUnder(s: Store, op: Op): Option<Claim> {
    match op
    case RunOp(RenewLease(c, lease)) => if Renew(s.table, c, lease).1.Ok? then Some(c) else None
    case RunOp(TransitionRun(c, m)) =>
      if Transition(s.table, c, m).1.Ok? && s.table.runs[c.Key()].state.Running? then Some(c) else None
    case Finish(k, a, status, c) => if SetStatus(s, k, a, status, c).1.Ok? then Some(c) else None
    case SaveAt(k, p, c) => if Save(s, k, p, c).1.Ok? then Some(c) else None
    case _ => None
  }

  ghost predicate History(ss: seq<Store>, ops: seq<Op>) {
    && |ss| == |ops| + 1
    && forall i {:trigger ops[i]} :: 0 <= i < |ops| ==> Enabled(ss[i], ops[i]) && ss[i + 1] == Step(ss[i], ops[i])
  }

  lemma WriterHoldsRight(s: Store, op: Op)
    requires WroteUnder(s, op).Some?
    ensures HoldsRight(s.table, WroteUnder(s, op).value)
  {
  }

  lemma StepOnTable(s: Store, op: Op)
    requires Enabled(s, op)
    ensures Step(s, op).table == if op.RunOp? then Fencing.Step(s.table, op.op) else s.table
  {
  }

  ghost function Tables(ss: seq<Store>): seq<Table> { seq(|ss|, i requires 0 <= i < |ss| => ss[i].table) }

  lemma StepFollows(s: Store, op: Op)
    requires Enabled(s, op)
    ensures Fencing.Follows(s.table, Step(s, op).table)
  {
    StepOnTable(s, op);
    if op.RunOp? {
      Fencing.StepFollows(s.table, op.op);
    }
  }

  lemma StepAt(ss: seq<Store>, ops: seq<Op>, n: int)
    requires History(ss, ops) && 0 < n <= |ops|
    ensures Fencing.Follows(ss[n - 1].table, ss[n].table)
  {
    StepFollows(ss[n - 1], ops[n - 1]);
  }

  lemma TablesFollow(ss: seq<Store>, ops: seq<Op>)
    requires History(ss, ops)
    ensures Fencing.Chain(Tables(ss))
  {
    forall n | 0 < n < |Tables(ss)| ensures Fencing.Linked(Tables(ss), n) {
      StepAt(ss, ops, n);
    }
  }

  /** The fence linearises all claimed writes on a run: whatever their kind, writes appear in
      token order and one token means one claim, so nothing a superseded worker wrote can
      follow its successor's writes. */
  lemma FencedWritesAreOrdered(ss: seq<Store>, ops: seq<Op>, i: int, j: int)
    requires History(ss, ops) && 0 <= i < j < |ops|
    requires WroteUnder(ss[i], ops[i]).Some? && WroteUnder(ss[j], ops[j]).Some?
    requires WroteUnder(ss[i], ops[i]).value.Key() == WroteUnder(ss[j], ops[j]).value.Key()
    ensures var first, second := WroteUnder(ss[i], ops[i]).value, WroteUnder(ss[j], ops[j]).value;
            first.fencingToken < second.fencingToken || first == second
  {
    WriterHoldsRight(ss[i], ops[i]);
    WriterHoldsRight(ss[j], ops[j]);
    TablesFollow(ss, ops);
    Fencing.ChainFollows(Tables(ss), i, j);
  }

  /** A finished attempt keeps its status for ever and any attempt its token; a saved checkpoint
      keeps its contents. */
  ghost predicate RowsFollow(s: Store, s': Store) {
    && (forall k :: k in s.attempts ==> k in s'.attempts && AttemptFollows(s.attempts[k], s'.attempts[k]))
    && (forall k :: k in s.checkpoints ==> k in s'.checkpoints && s'.checkpoints[k] == s.checkpoints[k])
  }

  ghost predicate AttemptFollows(a: Attempt, a': Attempt) {
    a'.fencingToken == a.fencingToken && (!a.status.Started? ==> a' == a)
  }

  lemma StepKeepsRows(s: Store, op: Op)
    requires Enabled(s, op)
    ensures RowsFollow(s, Step(s, op))
  {
  }

  lemma RowsFollowTransitive(a: Store, b: Store, c: Store)
    requires RowsFollow(a, b) && RowsFollow(b, c)
    ensures RowsFollow(a, c)
  {
  }

  lemma {:induction false} ResultsAreFrozen(ss: seq<Store>, ops: seq<Op>, a: int, b: int)
    requires History(ss, ops) && 0 <= a <= b <= |ops|
    ensures RowsFollow(ss[a], ss[b])
    decreases b
  {
    if a < b {
      ResultsAreFrozen(ss, ops, a, b - 1);
      StepKeepsRows(ss[b - 1], ops[b - 1]);
      RowsFollowTransitive(ss[a], ss[b - 1], ss[b]);
    }
  }

  // ---------------------------------------------------------------- stale claims

  /** The claim a step hands out, if any. */
  ghost function IssuedBy(s: Store, op: Op): Option<Claim>
    requires Enabled(s, op)
  {
    if op.RunOp? then Fencing.Issued(s.table, op.op) else None
  }

  /** From the moment a newer claim on the run is issued, and for ever, the older one finishes
      no attempt, saves no checkpoint, renews nothing and takes the run out of RUNNING never. */
  lemma NewerClaimFencesWrites(ss: seq<Store>, ops: seq<Op>, i: int, j: int, n: int)
    requires History(ss, ops) && 0 <= i < j < n <= |ops|
    requires IssuedBy(ss[i], ops[i]).Some? && IssuedBy(ss[j], ops[j]).Some?
    requires IssuedBy(ss[i], ops[i]).value.Key() == IssuedBy(ss[j], ops[j]).value.Key()
    ensures var stale, s := IssuedBy(ss[i], ops[i]).value, ss[n];
            && (forall k, a, status :: Refuses(s, SetStatus(s, k, a, status, stale)))
            && (forall k, p :: Refuses(s, Save(s, k, p, stale)))
            && (forall lease :: Renew(s.table, stale, lease) == (s.table, Err(LeaseLost)))
            && stale.Key() in s.table.runs
            && (forall m :: s.table.runs[stale.Key()].state.Running? ==>
                  Transition(s.table, stale, m).0 == s.table && Transition(s.table, stale, m).1.Err?)
  {
    TablesFollow(ss, ops);
    Fencing.ChainSupersedes(Tables(ss), i, ops[i].op, j, ops[j].op, n);
    var stale := IssuedBy(ss[i], ops[i]).value;
    Fencing.SupersededHasNoRight(ss[n].table, stale);
    Fencing.NoRightNoEffect(ss[n].table, stale);
  }

  ghost predicate Refuses<T>(s: Store, outcome: (Store, Result<T>)) { outcome.0 == s && outcome.1.Err? }

  // ---------------------------------------------------------------- whose attempt

  /** `set_status` compares the fence with the caller's copy of the attempt, not with the stored
      row. So whatever happens in between, an attempt is finished under the token it was started
      with exactly when the copy the caller passes is true of the stored row. */
  lemma FinishedUnderStartedTokenIff(ss: seq<Store>, ops: seq<Op>, i: int, n: int)
    requires History(ss, ops) && 0 <= i < n < |ops| && ops[i].Start? && ops[n].Finish?
    requires ops[i].key == ops[n].key && ops[i].key !in ss[i].attempts
    requires SetStatus(ss[n], ops[n].key, ops[n].attempt, ops[n].status, ops[n].claim).1.Ok?
    ensures ops[n].claim.fencingToken == ops[i].attempt.fencingToken
            <==> ops[n].attempt.fencingToken == ss[n].attempts[ops[n].key].fencingToken
  {
    ResultsAreFrozen(ss, ops, i + 1, n);
    assert ss[i + 1].attempts[ops[i].key] == ops[i].attempt;
  }

  /** So a newer claim can finish an attempt that an older one started. */
  lemma OlderAttemptCanBeFinished(s: Store, k: AttemptKey, claim: Claim)
    requires HoldsRight(s.table, claim) && k.tenantId == claim.tenantId && k.runId == claim.runId
    requires k in s.attempts && s.attempts[k].status.Started? && s.attempts[k].caseId == claim.caseId
    requires s.attempts[k].fencingToken < claim.fencingToken
    ensures var copy := s.attempts[k].(fencingToken := claim.fencingToken);
            SetStatus(s, k, copy, Succeeded, claim).1 == Ok(s.attempts[k].(status := Succeeded))
  {
  }
}
