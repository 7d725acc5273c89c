/** The queue mirrors the run table, and shared dispatch bypasses a waiting tenant boundedly. */
module DispatchProperties {
  import opened Common
  import opened Runtime
  import opened Runs
  import Fencing
  import Admission
  import Ordering
  import opened Dispatch

  // ---------------------------------------------------------------- histories

  datatype Op =
    | RunOp(op: Fencing.Op)
    | Next(tenant: Option<string>, locked: set<RunKey>, pick: Option<RunKey>, owner: string, lease: int)
    | SetCapacity(limits: map<Admission.Scope, int>, slots: map<RunKey, Admission.Slot>)

  /** Dispatch happens only through the queue; limits and slots may change in any way. */
  ghost predicate Enabled(s: Scheduler, op: Op) {
    match op
    case RunOp(o) => !o.Dispatch? && Fencing.Enabled(s.table, o)
    case Next(tenant, locked, pick, _, _) => IsPick(s, tenant, locked, pick)
    case SetCapacity(_, _) => true
  }

  ghost function Step(s: Scheduler, op: Op): Scheduler
    requires Enabled(s, op)
  {
    match op
    case RunOp(o) => Commit(s, Fencing.Step(s.table, o), TriggerKey(o))
    case Next(tenant, locked, pick, owner, lease) => ClaimNext(s, pick, owner, lease).0
    case SetCapacity(limits, slots) => s.(limits := limits, slots := slots)
  }

  /** The tenant a step dispatched through the queue, if it handed out a claim. */
  ghost function Dispatched(s: Scheduler, op: Op): Option<string>
    requires Enabled(s, op)
  {
    if op.Next? && op.pick.Some? && ClaimNext(s, op.pick, op.owner, op.lease).1.Ok?
    then Some(op.pick.value.tenantId) else None
  }

  ghost predicate History(ss: seq<Scheduler>, ops: seq<Op>) {
    && |ss| == |ops| + 1
    && forall i {:trigger ops[i]} :: 0 <= i < |ops| ==> Enabled(ss[i], ops[i]) && ss[i + 1] == Step(ss[i], ops[i])
  }

  // ---------------------------------------------------------------- the queue mirrors the runs

  ghost predicate RowMirrors(t: Table, queue: map<RunKey, QueueRow>, k: RunKey)
    requires k in queue && k in t.runs
  {
    var q, r := queue[k], t.runs[k];
    && q.caseId == r.caseId
    && (q.inFlight <==> r.state.Running?)
    && (r.state.Ready? ==> q.availableAt <= t.now)
    && (r.state.RetryAt? ==> r.availableAt == Some(q.availableAt))
  }

  ghost predicate Mirrors(t: Table, queue: map<RunKey, QueueRow>) {
    && (forall k :: k in queue <==> k in t.runs && IsQueued(t.runs[k]))
    && (forall k :: k in queue ==> RowMirrors(t, queue, k))
  }

  ghost predicate QueueMirrors(s: Scheduler) { Mirrors(s.table, s.queue) }

  /** The trigger realigns the written run's queue row and touches no other. */
  lemma TriggerRealigns(s: Scheduler, k: RunKey)
    requires k in s.table.runs && CoherentState(k.runId, s.table.runs[k])
    ensures var s', r := SyncQueue(s, k), s.table.runs[k];
            && s'.table == s.table
            && (k in s'.queue <==> IsQueued(r))
            && (k in s'.queue ==> RowMirrors(s'.table, s'.queue, k))
            && s'.queue - {k} == s.queue - {k}
  {
    var s' := SyncQueue(s, k);
    assert s'.queue - {k} == s.queue - {k};
  }

  lemma OtherRowMirrors(s: Scheduler, s': Scheduler, k: RunKey, j: RunKey)
    requires QueueMirrors(s) && j != k && s'.table.now >= s.table.now
    requires s'.queue - {k} == s.queue - {k} && s'.table.runs - {k} == s.table.runs - {k}
    ensures j in s'.queue <==> j in s'.table.runs && IsQueued(s'.table.runs[j])
    ensures j in s'.queue ==> RowMirrors(s'.table, s'.queue, j)
  {
    assert j in s.queue <==> j in s.queue - {k};
    assert j in s'.queue <==> j in s'.queue - {k};
    assert j in s.table.runs <==> j in s.table.runs - {k};
    assert j in s'.table.runs <==> j in s'.table.runs - {k};
    if j in s.queue {
      assert RowMirrors(s.table, s.queue, j);
      assert (s.queue - {k})[j] == s.queue[j] && (s'.queue - {k})[j] == s'.queue[j];
    }
    if j in s.table.runs {
      assert (s.table.runs - {k})[j] == s.table.runs[j] && (s'.table.runs - {k})[j] == s'.table.runs[j];
    }
  }

  /** Writing one coherent run row and firing the trigger keeps the mirror. */
  lemma WriteKeepsMirror(s: Scheduler, k: RunKey, r: Run)
    requires QueueMirrors(s) && CoherentState(k.runId, r)
    ensures QueueMirrors(Commit(s, WithRun(s.table, k, r), Some(k)))
  {
    if k in s.table.runs && s.table.runs[k] == r {
      OverwriteRun(s.table, k, r, r);
    } else {
      var written := s.(table := WithRun(s.table, k, r));
      var s' := SyncQueue(written, k);
      TriggerRealigns(written, k);
      assert s'.table.runs - {k} == s.table.runs - {k};
      forall j | j != k
        ensures j in s'.queue <==> j in s'.table.runs && IsQueued(s'.table.runs[j])
        ensures j in s'.queue ==> RowMirrors(s'.table, s'.queue, j)
      {
        OtherRowMirrors(s, s', k, j);
      }
    }
  }

  /** A run operation writes at most the row its trigger key names. */
  lemma RunOpWritesOneRow(t: Table, op: Fencing.Op)
    requires Fencing.Enabled(t, op) && Fencing.AllValid(t) && TriggerKey(op).Some?
    ensures var t', k := Fencing.Step(t, op), TriggerKey(op).value;
            t' == t || (k in t'.runs && t' == WithRun(t, k, t'.runs[k]) && CoherentState(k.runId, t'.runs[k]))
  {
    Fencing.StepKeepsRecordsValid(t, op);
  }

  lemma RunOpKeepsMirror(s: Scheduler, op: Fencing.Op)
    requires QueueMirrors(s) && Fencing.AllValid(s.table) && Fencing.Enabled(s.table, op)
    ensures QueueMirrors(Commit(s, Fencing.Step(s.table, op), TriggerKey(op)))
  {
    if TriggerKey(op).Some? {
      RunOpWritesOneRow(s.table, op);
      var t', k := Fencing.Step(s.table, op), TriggerKey(op).value;
      if t' != s.table {
        WriteKeepsMirror(s, k, t'.runs[k]);
      }
    } else {
      QuietOpKeepsMirror(s, op);
    }
  }

  /** Renewals, case updates and the clock fire no trigger and need none. */
  lemma QuietOpKeepsMirror(s: Scheduler, op: Fencing.Op)
    requires QueueMirrors(s) && Fencing.Enabled(s.table, op) && TriggerKey(op).None?
    ensures QueueMirrors(s.(table := Fencing.Step(s.table, op)))
  {
    var s' := s.(table := Fencing.Step(s.table, op));
    forall k | k in s'.queue ensures k in s'.table.runs && RowMirrors(s'.table, s'.queue, k) {
      assert RowMirrors(s.table, s.queue, k);
    }
  }

  /** What `claim_next` does to a picked run, statement by statement. */
  lemma ClaimKeepsMirror(s: Scheduler, k: RunKey, owner: string, lease: int)
    requires QueueMirrors(s) && k in s.table.runs && CoherentState(k.runId, s.table.runs[k])
    requires Dispatchable(s.table.runs[k], s.table.now)
    requires IsIdentifier(owner) && 0 <= s.table.runs[k].fencingToken < MAX_BIGINT
    ensures QueueMirrors(ClaimNext(s, Some(k), owner, lease).0)
  {
    ClaimNextInSteps(s, k, owner, lease);
    WakeKeepsMirror(s, k);
    WakeOnTable(s, k);
    var woken := WakeRetry(s, k);
    LeasedIsCoherent(k.runId, woken.table.runs[k], owner, woken.table.now + lease);
    StampKeepsMirror(woken, k, owner, lease);
    CountingKeepsMirror(Stamped(woken, k, owner, lease), k.tenantId);
  }

  lemma LeasedIsCoherent(runId: string, r: Run, owner: string, until: int)
    requires CoherentState(runId, r) && (r.state.Ready? || r.state.Running?) && owner != "" && 0 <= r.fencingToken
    ensures CoherentState(runId, Leased(r, owner, until))
  {
  }

  lemma CountingKeepsMirror(s: Scheduler, tenantId: string)
    requires QueueMirrors(s)
    ensures QueueMirrors(CountDispatch(s, tenantId))
  {
  }

  lemma StampKeepsMirror(s: Scheduler, k: RunKey, owner: string, lease: int)
    requires QueueMirrors(s) && k in s.table.runs
    requires CoherentState(k.runId, Leased(s.table.runs[k], owner, s.table.now + lease))
    ensures QueueMirrors(Stamped(s, k, owner, lease))
  {
    WriteKeepsMirror(s, k, Leased(s.table.runs[k], owner, s.table.now + lease));
  }

  lemma WakeKeepsMirror(s: Scheduler, k: RunKey)
    requires QueueMirrors(s) && k in s.table.runs && CoherentState(k.runId, s.table.runs[k])
    requires Dispatchable(s.table.runs[k], s.table.now)
    ensures QueueMirrors(WakeRetry(s, k))
  {
    if s.table.runs[k].state.RetryAt? {
      WriteKeepsMirror(s, k, s.table.runs[k].(state := Ready, availableAt := None));
    }
  }

  lemma WakeOnTable(s: Scheduler, k: RunKey)
    requires k in s.table.runs && CoherentState(k.runId, s.table.runs[k])
    requires Dispatchable(s.table.runs[k], s.table.now)
    ensures var woken := WakeRetry(s, k).table;
            k in woken.runs && CoherentState(k.runId, woken.runs[k])
            && (woken.runs[k].state.Ready? || woken.runs[k].state.Running?)
            && woken.runs[k].fencingToken == s.table.runs[k].fencingToken
  {
  }

  /** The run table sees `claim_next` as the dispatch of the picked run, or as nothing. */
  lemma ClaimNextOnTable(s: Scheduler, k: RunKey, owner: string, lease: int)
    requires Fencing.Enabled(s.table, Fencing.Dispatch(k, owner, lease))
    ensures ClaimNext(s, Some(k), owner, lease).0.table == Fencing.Step(s.table, Fencing.Dispatch(k, owner, lease))
    ensures ClaimNext(s, Some(k), owner, lease).1.Ok?
            <==> IsIdentifier(owner) && s.table.runs[k].fencingToken < MAX_BIGINT
    ensures ClaimNext(s, Some(k), owner, lease).1.Err? ==> ClaimNext(s, Some(k), owner, lease).0 == s
  {
  }

  lemma NextKeepsMirror(s: Scheduler, k: RunKey, owner: string, lease: int)
    requires QueueMirrors(s) && Fencing.AllValid(s.table)
    requires k in s.table.runs && Dispatchable(s.table.runs[k], s.table.now)
    ensures QueueMirrors(ClaimNext(s, Some(k), owner, lease).0)
    ensures Fencing.AllValid(ClaimNext(s, Some(k), owner, lease).0.table)
  {
    ClaimNextOnTable(s, k, owner, lease);
    Fencing.StepKeepsRecordsValid(s.table, Fencing.Dispatch(k, owner, lease));
    if IsIdentifier(owner) && s.table.runs[k].fencingToken < MAX_BIGINT {
      ClaimKeepsMirror(s, k, owner, lease);
    }
  }

  ghost predicate Sound(s: Scheduler) { QueueMirrors(s) && Fencing.AllValid(s.table) }

  lemma PickKeepsSound(s: Scheduler, tenant: Option<string>, locked: set<RunKey>, pick: Option<RunKey>,
      owner: string, lease: int)
    requires Sound(s) && IsPick(s, tenant, locked, pick)
    ensures pick.Some? ==> pick.value in s.table.runs && Dispatchable(s.table.runs[pick.value], s.table.now)
    ensures Sound(ClaimNext(s, pick, owner, lease).0)
  {
    if pick.Some? {
      EligibleIsDispatchable(s, pick.value);
      NextKeepsMirror(s, pick.value, owner, lease);
    }
  }

  lemma StepKeepsSound(s: Scheduler, op: Op)
    requires Sound(s) && Enabled(s, op)
    ensures Sound(Step(s, op))
  {
    match op
    case RunOp(o) =>
      RunOpKeepsMirror(s, o);
      Fencing.StepKeepsRecordsValid(s.table, o);
    case Next(tenant, locked, pick, owner, lease) => PickKeepsSound(s, tenant, locked, pick, owner, lease);
    case SetCapacity(limits, slots) =>
  }

  lemma {:induction false} QueueAlwaysMirrors(ss: seq<Scheduler>, ops: seq<Op>, n: int)
    requires History(ss, ops) && 0 <= n <= |ops|
    requires Sound(ss[0])
    ensures Sound(ss[n])
  {
    if n != 0 {
      QueueAlwaysMirrors(ss, ops, n - 1);
      StepKeepsSound(ss[n - 1], ops[n - 1]);
    }
  }

  /** No claimable run is lost by the queue: along every history, the dispatch query sees
      exactly the runs the runtime guards would let be claimed, minus saturated tenants. */
  lemma QueryIsExact(ss: seq<Scheduler>, ops: seq<Op>, n: int, k: RunKey)
    requires History(ss, ops) && 0 <= n <= |ops|
    requires Sound(ss[0])
    ensures var s := ss[n];
            Eligible(s, k) <==>
              && k in s.table.runs && Dispatchable(s.table.runs[k], s.table.now)
              && !Admission.Saturated(CapacityOf(s), k.tenantId)
  {
    QueueAlwaysMirrors(ss, ops, n);
    MirroredQueryIsExact(ss[n], k);
  }

  lemma MirroredQueryIsExact(s: Scheduler, k: RunKey)
    requires QueueMirrors(s)
    ensures Eligible(s, k) <==>
              && k in s.table.runs && Dispatchable(s.table.runs[k], s.table.now)
              && !Admission.Saturated(CapacityOf(s), k.tenantId)
  {
  }

  lemma EmptySchedulerIsSound(now: int, cases: map<CaseKey, int>)
    ensures Sound(Scheduler(Table(now, cases, map[]), map[], 0, map[], 0, map[], map[]))
  {
  }

  // ---------------------------------------------------------------- bounded bypass

  /** The fairness cursor never runs ahead of the dispatch sequence. */
  ghost predicate CursorBounded(s: Scheduler) {
    && 0 <= s.dispatchSeq
    && forall u :: u in s.fairness ==> s.fairness[u].lastDispatchSeq <= s.dispatchSeq
  }

  lemma CommitKeepsCursor(s: Scheduler, t: Table, touched: Option<RunKey>)
    ensures Commit(s, t, touched).fairness == s.fairness && Commit(s, t, touched).dispatchSeq == s.dispatchSeq
  {
  }

  /** Only a claim moves a cursor: the claimed tenant's, to the end of the line. */
  lemma ClaimMovesCursor(s: Scheduler, pick: Option<RunKey>, owner: string, lease: int)
    requires pick.Some? ==> pick.value in s.table.runs && Dispatchable(s.table.runs[pick.value], s.table.now)
    ensures var (s', r) := ClaimNext(s, pick, owner, lease);
            if pick.Some? && r.Ok? then
              s'.fairness.Keys == s.fairness.Keys + {pick.value.tenantId} && s'.dispatchSeq == s.dispatchSeq + 1
              && (forall u :: u in s'.fairness ==>
                    u == pick.value.tenantId || LastDispatch(s', u) == LastDispatch(s, u))
              && LastDispatch(s', pick.value.tenantId) == s'.dispatchSeq
            else s' == s
  {
    if pick.Some? && ClaimNext(s, pick, owner, lease).1.Ok? {
      var k := pick.value;
      var t := DispatchRun(s.table, k, owner, lease).0;
      if s.table.runs[k].state.RetryAt? {
        CommitKeepsCursor(s, WithRun(s.table, k, s.table.runs[k].(state := Ready, availableAt := None)), Some(k));
      }
      CommitKeepsCursor(WakeRetry(s, k), t, Some(k));
    }
  }

  lemma StepMovesCursor(s: Scheduler, op: Op, u: string)
    requires CursorBounded(s) && Enabled(s, op)
    ensures CursorBounded(Step(s, op))
    ensures LastDispatch(Step(s, op), u)
            == if Dispatched(s, op) == Some(u) then s.dispatchSeq + 1 else LastDispatch(s, u)
  {
    match op
    case RunOp(o) => CommitKeepsCursor(s, Fencing.Step(s.table, o), TriggerKey(o));
    case Next(tenant, locked, pick, owner, lease) => ClaimMovesCursor(s, pick, owner, lease);
    case SetCapacity(_, _) =>
  }

  /** While `waiting` is not dispatched, its cursor stands still and others' only grow. */
  ghost predicate CursorsFollow(s: Scheduler, s': Scheduler, waiting: string, u: string) {
    CursorBounded(s) ==>
      && CursorBounded(s') && LastDispatch(s', waiting) == LastDispatch(s, waiting)
      && LastDispatch(s, u) <= LastDispatch(s', u)
  }

  lemma StepFollows(s: Scheduler, op: Op, waiting: string, u: string)
    requires Enabled(s, op) && Dispatched(s, op) != Some(waiting)
    ensures CursorsFollow(s, Step(s, op), waiting, u)
  {
    if CursorBounded(s) {
      StepMovesCursor(s, op, waiting);
      StepMovesCursor(s, op, u);
      CursorIsBounded(s, u);
    }
  }

  ghost predicate Linked(ss: seq<Scheduler>, waiting: string, u: string, n: int)
    requires 0 < n < |ss|
  {
    CursorsFollow(ss[n - 1], ss[n], waiting, u)
  }

  ghost predicate CursorChain(ss: seq<Scheduler>, waiting: string, u: string) {
    forall n :: 0 < n < |ss| ==> Linked(ss, waiting, u, n)
  }

  lemma {:induction false} ChainFollows(ss: seq<Scheduler>, waiting: string, u: string, a: int, b: int)
    requires CursorChain(ss, waiting, u) && 0 <= a <= b < |ss|
    ensures CursorsFollow(ss[a], ss[b], waiting, u)
    decreases b
  {
    if a < b {
      ChainFollows(ss, waiting, u, a, b - 1);
      assert Linked(ss, waiting, u, b);
    }
  }

  lemma CursorsWhileWaiting(ss: seq<Scheduler>, ops: seq<Op>, waiting: string, u: string)
    requires History(ss, ops) && KeptWaiting(ss, ops, waiting)
    ensures CursorChain(ss, waiting, u)
  {
    forall n | 0 < n < |ss| ensures Linked(ss, waiting, u, n) {
      StepFollows(ss[n - 1], ops[n - 1], waiting, u);
    }
  }

  lemma CursorIsBounded(s: Scheduler, u: string)
    requires CursorBounded(s)
    ensures LastDispatch(s, u) <= s.dispatchSeq
  {
  }

  predicate IsShared(op: Op) { op.Next? && op.tenant.None? }

  /** At a shared step, `waiting` has a run the worker could have taken. */
  ghost predicate HasUnlockedRun(s: Scheduler, op: Op, waiting: string) {
    op.Next? && exists k: RunKey :: k.tenantId == waiting && Candidate(s, None, op.locked, k)
  }

  ghost predicate SharedDispatch(s: Scheduler, op: Op, u: string)
    requires Enabled(s, op)
  {
    IsShared(op) && Dispatched(s, op) == Some(u)
  }

  /** `waiting` is never dispatched although every shared step could have taken a run of it. */
  ghost predicate KeptWaiting(ss: seq<Scheduler>, ops: seq<Op>, waiting: string)
    requires History(ss, ops)
  {
    && (forall m :: 0 <= m < |ops| ==> Dispatched(ss[m], ops[m]) != Some(waiting))
    && (forall m :: 0 <= m < |ops| && IsShared(ops[m]) ==> HasUnlockedRun(ss[m], ops[m], waiting))
  }

  /** A shared step never picks a tenant whose cursor is ahead of a waiting one's. */
  lemma SharedPicksLowestCursor(s: Scheduler, op: Op, waiting: string, u: string)
    requires Enabled(s, op) && SharedDispatch(s, op, u) && HasUnlockedRun(s, op, waiting)
    ensures LastDispatch(s, u) <= LastDispatch(s, waiting)
  {
  }

  /** A dispatched tenant goes behind everyone who is waiting. */
  lemma DispatchedGoesLast(s: Scheduler, op: Op, waiting: string, u: string)
    requires Enabled(s, op) && CursorBounded(s) && Dispatched(s, op) == Some(u) && u != waiting
    ensures CursorBounded(Step(s, op)) && LastDispatch(Step(s, op), waiting) < LastDispatch(Step(s, op), u)
  {
    StepMovesCursor(s, op, u);
    StepMovesCursor(s, op, waiting);
    CursorIsBounded(s, waiting);
  }

  /** Bounded bypass: while a tenant has an eligible, unlocked run at every shared dispatch and
      is not dispatched itself, every other tenant is dispatched by shared workers at most
      once. Pinned workers of other tenants may claim in between without spoiling it. */
  lemma BoundedBypass(ss: seq<Scheduler>, ops: seq<Op>, waiting: string, i: int, j: int, u: string)
    requires History(ss, ops) && CursorBounded(ss[0]) && 0 <= i < j < |ops|
    requires KeptWaiting(ss, ops, waiting) && SharedDispatch(ss[i], ops[i], u)
    ensures !SharedDispatch(ss[j], ops[j], u)
  {
    CursorsWhileWaiting(ss, ops, waiting, u);
    ChainFollows(ss, waiting, u, 0, i);
    DispatchedGoesLast(ss[i], ops[i], waiting, u);
    ChainFollows(ss, waiting, u, i + 1, j);
    if SharedDispatch(ss[j], ops[j], u) {
      SharedPicksLowestCursor(ss[j], ops[j], waiting, u);
    }
  }

  const FRESH_RUN := Run("c", None, 1, Ready, 0, None, None, None, None, None)

  /** One run of each of two tenants, both READY; the run of the first was queued before. */
  function TwoTenants(first: RunKey, second: RunKey): Scheduler {
    Scheduler(Table(0, map[], map[first := FRESH_RUN, second := FRESH_RUN]),
              map[first := QueueRow("c", 1, 0, 0, false), second := QueueRow("c", 2, 0, 0, false)], 2,
              map[], 0, map[], map[])
  }

  lemma FirstIsPicked(first: RunKey, second: RunKey)
    requires first != second
    ensures var s := TwoTenants(first, second);
            IsPick(s, None, {}, Some(first)) && Candidate(s, None, {}, second)
  {
    var s := TwoTenants(first, second);
    Ordering.StrLtTotal(first.tenantId, first.tenantId);
    forall k | Candidate(s, None, {}, k) ensures !Before(s, k, first) {
      assert k == first || k == second;
    }
  }

  lemma TwoSteps(ss: seq<Scheduler>, ops: seq<Op>)
    requires |ss| == 3 && |ops| == 2
    requires Enabled(ss[0], ops[0]) && ss[1] == Step(ss[0], ops[0])
    requires Enabled(ss[1], ops[1]) && ss[2] == Step(ss[1], ops[1])
    ensures History(ss, ops)
  {
    forall i | 0 <= i < |ops| ensures Enabled(ss[i], ops[i]) && ss[i + 1] == Step(ss[i], ops[i]) {
      assert i == 0 || i == 1;
    }
  }

  /** One dispatch, and then nothing but time. */
  lemma BypassedOnce(s: Scheduler, op: Op, waiting: string, u: string) returns (ss: seq<Scheduler>, ops: seq<Op>)
    requires Enabled(s, op) && SharedDispatch(s, op, u) && HasUnlockedRun(s, op, waiting) && u != waiting
    ensures |ops| == 2 && History(ss, ops) && ss[0] == s && ops[0] == op && KeptWaiting(ss, ops, waiting)
  {
    var s', tick := Step(s, op), RunOp(Fencing.Tick(0));
    ss, ops := [s, s', Step(s', tick)], [op, tick];
    TwoSteps(ss, ops);
    forall m | 0 <= m < |ops| ensures Dispatched(ss[m], ops[m]) != Some(waiting) {
      assert ops[m] == op || ops[m] == tick;
    }
  }

  /** A tenant is indeed bypassed when another one's run was queued first. */
  lemma BypassHappens() returns (ss: seq<Scheduler>, ops: seq<Op>, waiting: string, u: string)
    ensures |ops| == 2 && History(ss, ops) && CursorBounded(ss[0])
    ensures KeptWaiting(ss, ops, waiting) && SharedDispatch(ss[0], ops[0], u)
  {
    waiting, u := "b", "a";
    var first, second := RunKey(u, "r"), RunKey(waiting, "r");
    var s, op := TwoTenants(first, second), Next(None, {}, Some(first), "w", 1);
    FirstIsPicked(first, second);
    assert HasUnlockedRun(s, op, waiting) && SharedDispatch(s, op, u);
    ss, ops := BypassedOnce(s, op, waiting, u);
  }

  /** Whom each step dispatched for a shared worker, if anyone. */
  ghost function SharedLog(ss: seq<Scheduler>, ops: seq<Op>): seq<Option<string>>
    requires History(ss, ops)
  {
    seq(|ops|, i requires 0 <= i < |ops| => if IsShared(ops[i]) then Dispatched(ss[i], ops[i]) else None)
  }

  ghost predicate Distinct(log: seq<Option<string>>) {
    forall i, j :: 0 <= i < j < |log| && log[i].Some? ==> log[i] != log[j]
  }

  ghost function Count(log: seq<Option<string>>): nat {
    if log == [] then 0 else Count(log[..|log| - 1]) + if log[|log| - 1].Some? then 1 else 0
  }

  lemma {:induction false} DistinctFit(log: seq<Option<string>>, others: set<string>)
    requires Distinct(log) && forall i :: 0 <= i < |log| && log[i].Some? ==> log[i].value in others
    ensures Count(log) <= |others|
  {
    if log != [] {
      var last := log[|log| - 1];
      DistinctFit(log[..|log| - 1], if last.Some? then others - {last.value} else others);
    }
  }

  /** So the wait is bounded: at most one shared dispatch per other tenant in play. */
  lemma WaitIsBounded(ss: seq<Scheduler>, ops: seq<Op>, waiting: string, others: set<string>)
    requires History(ss, ops) && CursorBounded(ss[0]) && KeptWaiting(ss, ops, waiting)
    requires forall i :: 0 <= i < |ops| && SharedLog(ss, ops)[i].Some? ==> SharedLog(ss, ops)[i].value in others
    ensures Count(SharedLog(ss, ops)) <= |others|
  {
    var log := SharedLog(ss, ops);
    forall i, j | 0 <= i < j < |log| && log[i].Some? ensures log[i] != log[j] {
      BoundedBypass(ss, ops, waiting, i, j, log[i].value);
    }
    DistinctFit(log, others);
  }
}
