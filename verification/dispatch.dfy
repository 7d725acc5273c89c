/** Fair dispatch: the trigger-maintained execution queue, the tenant fairness cursor and
    `claim_next`, on top of the run table and the capacity limits. */
module Dispatch {
  import opened Common
  import opened Runtime
  import opened Runs
  import Fencing
  import Admission
  import opened Ordering

  datatype QueueRow = QueueRow(caseId: string, queueSeq: int, priority: int, availableAt: int, inFlight: bool)

  datatype Fairness = Fairness(lastDispatchSeq: int, dispatchCount: int)

  datatype Scheduler = Scheduler(
    table: Table,
    queue: map<RunKey, QueueRow>, queueSeq: int,
    fairness: map<string, Fairness>, dispatchSeq: int,
    limits: map<Admission.Scope, int>, slots: map<RunKey, Admission.Slot>)

  // ---------------------------------------------------------------- queue trigger

  predicate IsQueued(r: Run) { r.state.Ready? || r.state.RetryAt? || r.state.Running? }

  /** The row the trigger upserts for a run in a queued state. */
  function SyncedRow(queue: map<RunKey, QueueRow>, seq': int, now: int, k: RunKey, r: Run): QueueRow {
    var due := if r.availableAt.Some? then r.availableAt.value else now;
    if r.state.Running? then
      if k in queue then queue[k].(caseId := r.caseId, inFlight := true)
      else QueueRow(r.caseId, seq', 0, now, true)
    else
      if k in queue then queue[k].(caseId := r.caseId, availableAt := due, inFlight := false)
      else QueueRow(r.caseId, seq', 0, due, false)
  }

  /** The AFTER INSERT OR UPDATE trigger on the run table. */
  function SyncQueue(s: Scheduler, k: RunKey): Scheduler
    requires k in s.table.runs
  {
    var r := s.table.runs[k];
    if IsQueued(r) then
      s.(queue := s.queue[k := SyncedRow(s.queue, s.queueSeq + 1, s.table.now, k, r)], queueSeq := s.queueSeq + 1)
    else s.(queue := s.queue - {k})
  }

  /** The run a table operation writes, when its statement names a trigger column. */
  function TriggerKey(op: Fencing.Op): Option<RunKey> {
    match op
    case Create(k, _) => Some(k)
    case ClaimByKey(k, _, _) => Some(k)
    case Dispatch(k, _, _) => Some(k)
    case TransitionRun(claim, _) => Some(claim.Key())
    case Settle(k, _, _, _) => Some(k)
    case Resolve(k, _, _) => Some(k)
    case RenewLease(_, _) => None
    case SetCase(_, _) => None
    case Tick(_) => None
  }

  /** Commit a new run table and fire the trigger for the row it changed, if any. */
  function Commit(s: Scheduler, t: Table, touched: Option<RunKey>): Scheduler {
    if touched.Some? && touched.value in t.runs
       && (touched.value !in s.table.runs || s.table.runs[touched.value] != t.runs[touched.value])
    then SyncQueue(s.(table := t), touched.value)
    else s.(table := t)
  }

  // ---------------------------------------------------------------- selection

  ghost function CapacityOf(s: Scheduler): Admission.Capacity {
    Admission.Capacity(s.table.now, s.limits, s.slots)
  }

  /** The WHERE clause of the dispatch query. */
  ghost predicate Eligible(s: Scheduler, k: RunKey) {
    && k in s.queue && k in s.table.runs && s.queue[k].caseId == s.table.runs[k].caseId
    && (var q, r, now := s.queue[k], s.table.runs[k], s.table.now;
        && ((!q.inFlight && q.availableAt <= now) || (q.inFlight && LeaseExpired(r, now)))
        && (r.state.Ready? || RetryDue(r, now) || LeaseExpired(r, now)))
    && !Admission.Saturated(CapacityOf(s), k.tenantId)
  }

  /** SKIP LOCKED drops `locked`; a pinned worker only sees its own tenant. */
  ghost predicate Candidate(s: Scheduler, tenant: Option<string>, locked: set<RunKey>, k: RunKey) {
    Eligible(s, k) && k !in locked && (tenant.Some? ==> k.tenantId == tenant.value)
  }

  function LastDispatch(s: Scheduler, tenantId: string): int {
    if tenantId in s.fairness then s.fairness[tenantId].lastDispatchSeq else 0
  }

  /** ORDER BY the tenant's last dispatch, then priority (highest first), availability,
      queue position and tenant id. */
  predicate Before(s: Scheduler, a: RunKey, b: RunKey)
    requires a in s.queue && b in s.queue
  {
    var p, q := s.queue[a], s.queue[b];
    var x, y := LastDispatch(s, a.tenantId), LastDispatch(s, b.tenantId);
    if x != y then x < y
    else if p.priority != q.priority then p.priority > q.priority
    else if p.availableAt != q.availableAt then p.availableAt < q.availableAt
    else if p.queueSeq != q.queueSeq then p.queueSeq < q.queueSeq
    else StrLt(a.tenantId, b.tenantId)
  }

  /** `pick` is what ORDER BY ... LIMIT 1 returns: no candidate precedes it. */
  ghost predicate IsPick(s: Scheduler, tenant: Option<string>, locked: set<RunKey>, pick: Option<RunKey>) {
    match pick
    case None => forall k :: !Candidate(s, tenant, locked, k)
    case Some(k) =>
      && Candidate(s, tenant, locked, k)
      && forall j :: Candidate(s, tenant, locked, j) ==> !Before(s, j, k)
  }

  lemma EligibleIsDispatchable(s: Scheduler, k: RunKey)
    requires Eligible(s, k)
    ensures k in s.table.runs && Dispatchable(s.table.runs[k], s.table.now)
  {
  }

  function CountDispatch(s: Scheduler, tenantId: string): Scheduler {
    var count := if tenantId in s.fairness then s.fairness[tenantId].dispatchCount + 1 else 1;
    s.(fairness := s.fairness[tenantId := Fairness(s.dispatchSeq + 1, count)], dispatchSeq := s.dispatchSeq + 1)
  }

  /** Make a due retry READY first, in its own UPDATE; other runs are taken as they are. */
  function WakeRetry(s: Scheduler, k: RunKey): Scheduler
    requires k in s.table.runs
  {
    var r := s.table.runs[k];
    if r.state.RetryAt? then
      Commit(s, WithRun(s.table, k, r.(state := Ready, availableAt := None)), Some(k))
    else s
  }

  /** Put the lease and the next token on a run, and let the trigger follow. */
  function Stamped(s: Scheduler, k: RunKey, owner: string, lease: int): Scheduler
    requires k in s.table.runs
  {
    Commit(s, WithRun(s.table, k, Leased(s.table.runs[k], owner, s.table.now + lease)), Some(k))
  }

  function StampedClaim(s: Scheduler, k: RunKey, owner: string): Claim
    requires k in s.table.runs
  {
    Claim(k.tenantId, s.table.runs[k].caseId, k.runId, owner, s.table.runs[k].fencingToken + 1)
  }

  /** Claim the picked run and advance its tenant's fairness cursor. */
  function ClaimNext(s: Scheduler, pick: Option<RunKey>, owner: string, lease: int): (Scheduler, Result<Option<Claim>>)
    requires pick.Some? ==> pick.value in s.table.runs && Dispatchable(s.table.runs[pick.value], s.table.now)
  {
    match pick
    case None => (s, Ok(None))
    case Some(k) =>
      var (t, r) := DispatchRun(s.table, k, owner, lease);
      match r
      case Err(code) => (s, Err(code))
      case Ok(claim) => (CountDispatch(Commit(WakeRetry(s, k), t, Some(k)), k.tenantId), Ok(Some(claim)))
  }

  // ---------------------------------------------------------------- the repository

  class RunRepository {
    var now: int
    var cases: map<CaseKey, int>
    var runs: map<RunKey, Run>
    var queue: map<RunKey, QueueRow>
    var queueSeq: int
    var fairness: map<string, Fairness>
    var dispatchSeq: int
    var limits: map<Admission.Scope, int>
    var slots: map<RunKey, Admission.Slot>

    constructor (now: int)
      ensures View() == Scheduler(Table(now, map[], map[]), map[], 0, map[], 0, map[], map[])
    {
      this.now := now;
      cases, runs, queue, fairness, limits, slots := map[], map[], map[], map[], map[], map[];
      queueSeq, dispatchSeq := 0, 0;
    }

    function View(): Scheduler
      reads this
    {
      Scheduler(Table(now, cases, runs), queue, queueSeq, fairness, dispatchSeq, limits, slots)
    }

    /** Write a run row and let the trigger realign its queue row. */
    method WriteRun(k: RunKey, r: Run)
      requires k in runs ==> runs[k] != r
      modifies this`runs, this`queue, this`queueSeq
      ensures View() == Commit(old(View()), WithRun(old(View()).table, k, r), Some(k))
    {
      runs := runs[k := r];
      if r.state.Running? {
        queueSeq := queueSeq + 1;
        var row := if k in queue then queue[k].(caseId := r.caseId, inFlight := true)
                   else QueueRow(r.caseId, queueSeq, 0, now, true);
        queue := queue[k := row];
      } else if r.state.Ready? || r.state.RetryAt? {
        queueSeq := queueSeq + 1;
        var due := if r.availableAt.Some? then r.availableAt.value else now;
        var row := if k in queue then queue[k].(caseId := r.caseId, availableAt := due, inFlight := false)
                   else QueueRow(r.caseId, queueSeq, 0, due, false);
        queue := queue[k := row];
      } else {
        queue := queue - {k};
      }
    }

    method Create(k: RunKey, r: Run) returns (outcome: Result<()>)
      requires ValidRecord(k.runId, r)
      modifies this`runs, this`queue, this`queueSeq
      ensures View() == Commit(old(View()), CreateRun(old(View()).table, k, r).0, Some(k))
      ensures outcome == CreateRun(old(View()).table, k, r).1
    {
      if CaseKey(k.tenantId, r.caseId) !in cases || k in runs {
        return Err(Database);
      }
      if r.state.Running? || IsWaiting(r.state) || r.state.RetryAt? {
        return Err(Database);
      }
      WriteRun(k, r);
      return Ok(());
    }

    method ClaimByKey(k: RunKey, owner: string, lease: int) returns (outcome: Result<Claim>)
      modifies this`runs, this`queue, this`queueSeq
      ensures View() == Commit(old(View()), ClaimRun(old(View()).table, k, owner, lease).0, Some(k))
      ensures outcome == ClaimRun(old(View()).table, k, owner, lease).1
    {
      if k !in runs {
        return Err(Conflict);
      }
      var r := runs[k];
      var expired := r.state.Running? && r.leaseUntil.Some? && r.leaseUntil.value <= now;
      if !r.state.Ready? && !expired {
        return Err(Conflict);
      }
      if !IsIdentifier(owner) || r.fencingToken >= MAX_BIGINT {
        return Err(Validation);
      }
      var claim := StampLease(k, owner, lease);
      return Ok(claim);
    }

    /** The ordered select over the queue: keep the best candidate seen so far. `full` is the
        set of saturated tenants the prefilter reports. */
    method SelectNext(tenant: Option<string>, locked: set<RunKey>, full: set<string>) returns (pick: Option<RunKey>)
      requires forall k :: k in queue ==> (k.tenantId in full <==> Admission.Saturated(CapacityOf(View()), k.tenantId))
      ensures IsPick(View(), tenant, locked, pick)
    {
      pick := None;
      var rest := queue.Keys;
      while rest != {}
        invariant rest <= queue.Keys
        invariant pick.Some? ==> Candidate(View(), tenant, locked, pick.value)
        invariant forall j :: Candidate(View(), tenant, locked, j) && j !in rest
                    ==> pick.Some? && !Before(View(), j, pick.value)
      {
        var k :| k in rest;
        var matches := Matches(k, full) && k !in locked && (tenant.None? || k.tenantId == tenant.value);
        if matches && (pick.None? || Before(View(), k, pick.value)) {
          ghost var best := pick;
          pick := Some(k);
          forall j | Candidate(View(), tenant, locked, j) && j !in rest - {k} ensures !Before(View(), j, k) {
            if best.Some? && j != k {
              BeforeIsTransitive(View(), j, k, best.value);
            }
            BeforeIsIrreflexive(View(), k);
          }
        }
        rest := rest - {k};
      }
    }

    /** The tenants of the queue that some configured limit holds back. */
    method SaturatedTenants() returns (full: set<string>)
      ensures forall k :: k in queue ==> (k.tenantId in full <==> Admission.Saturated(CapacityOf(View()), k.tenantId))
    {
      full := set k | k in queue && (IsFull(Admission.Global) || IsFull(Admission.Tenant(k.tenantId))) :: k.tenantId;
    }

    predicate IsFull(scope: Admission.Scope)
      reads this
      ensures IsFull(scope) == Admission.ScopeFull(CapacityOf(View()), scope)
    {
      scope in limits && limits[scope] <=
        |set k | k in slots && now < slots[k].leaseUntil && (scope.Global? || k.tenantId == scope.id)|
    }

    /** `claim_next`: the prefilter, the ordered select past the locked rows, then the claim. */
    method TakeNext(tenant: Option<string>, locked: set<RunKey>, owner: string, lease: int)
      returns (outcome: Result<Option<Claim>>, ghost pick: Option<RunKey>)
      modifies this`runs, this`queue, this`queueSeq, this`fairness, this`dispatchSeq
      ensures IsPick(old(View()), tenant, locked, pick)
      ensures pick.Some? ==> pick.value in old(runs) && Dispatchable(old(runs)[pick.value], now)
      ensures (View(), outcome) == ClaimNext(old(View()), pick, owner, lease)
    {
      var full := SaturatedTenants();
      var next := SelectNext(tenant, locked, full);
      if next.Some? {
        EligibleIsDispatchable(View(), next.value);
      }
      pick := next;
      outcome := DispatchNext(next, owner, lease);
    }

    predicate Matches(k: RunKey, full: set<string>)
      requires k in queue
      reads this
    {
      && k in runs && queue[k].caseId == runs[k].caseId && k.tenantId !in full
      && ((!queue[k].inFlight && queue[k].availableAt <= now) || (queue[k].inFlight && LeaseExpired(runs[k], now)))
      && (runs[k].state.Ready? || RetryDue(runs[k], now) || LeaseExpired(runs[k], now))
    }

    method DispatchNext(pick: Option<RunKey>, owner: string, lease: int) returns (outcome: Result<Option<Claim>>)
      requires pick.Some? ==> pick.value in runs && Dispatchable(runs[pick.value], now)
      modifies this`runs, this`queue, this`queueSeq, this`fairness, this`dispatchSeq
      ensures (View(), outcome) == ClaimNext(old(View()), pick, owner, lease)
    {
      if pick.None? {
        return Ok(None);
      }
      var k := pick.value;
      if !IsIdentifier(owner) || runs[k].fencingToken >= MAX_BIGINT {
        return Err(Validation);
      }
      ClaimNextInSteps(View(), k, owner, lease);
      WakeIfRetry(k);
      var claim := StampLease(k, owner, lease);
      BumpFairness(k.tenantId);
      return Ok(Some(claim));
    }

    method WakeIfRetry(k: RunKey)
      requires k in runs
      modifies this`runs, this`queue, this`queueSeq
      ensures View() == WakeRetry(old(View()), k)
    {
      if runs[k].state.RetryAt? {
        WriteRun(k, runs[k].(state := Ready, availableAt := None));
      }
    }

    method StampLease(k: RunKey, owner: string, lease: int) returns (claim: Claim)
      requires k in runs
      modifies this`runs, this`queue, this`queueSeq
      ensures View() == Stamped(old(View()), k, owner, lease)
      ensures claim == StampedClaim(old(View()), k, owner)
    {
      var r := runs[k];
      var token := r.fencingToken + 1;
      WriteRun(k, r.(state := Running, leaseOwner := Some(owner), leaseUntil := Some(now + lease),
                     fencingToken := token));
      claim := Claim(k.tenantId, r.caseId, k.runId, owner, token);
    }

    method BumpFairness(tenantId: string)
      modifies this`fairness, this`dispatchSeq
      ensures View() == CountDispatch(old(View()), tenantId)
    {
      dispatchSeq := dispatchSeq + 1;
      var count := if tenantId in fairness then fairness[tenantId].dispatchCount + 1 else 1;
      fairness := fairness[tenantId := Fairness(dispatchSeq, count)];
    }

    method RenewLease(claim: Claim, lease: int) returns (outcome: Result<()>)
      modifies this`runs
      ensures View() == old(View()).(table := Renew(old(View()).table, claim, lease).0)
      ensures outcome == Renew(old(View()).table, claim, lease).1
    {
      var k := claim.Key();
      if k !in runs || runs[k].caseId != claim.caseId || !runs[k].state.Running?
         || runs[k].leaseOwner != Some(claim.owner) || runs[k].fencingToken != claim.fencingToken
         || runs[k].leaseUntil.None? || runs[k].leaseUntil.value <= now {
        return Err(LeaseLost);
      }
      runs := runs[k := runs[k].(leaseUntil := Some(now + lease))];
      return Ok(());
    }

    method Advance(claim: Claim, m: Move) returns (outcome: Result<Run>)
      modifies this`runs, this`queue, this`queueSeq
      ensures View() == Commit(old(View()), Transition(old(View()).table, claim, m).0, Some(claim.Key()))
      ensures outcome == Transition(old(View()).table, claim, m).1
    {
      if m.caseVersion.Some? && m.expectedCaseVersion.Some? && m.caseVersion != m.expectedCaseVersion {
        return Err(Conflict);
      }
      var expected := if m.caseVersion.Some? then m.caseVersion else m.expectedCaseVersion;
      if m.target.Running? {
        return Err(Conflict);
      }
      if claim.Case() !in cases {
        return Err(Forbidden);
      }
      if expected.Some? && expected.value != cases[claim.Case()] {
        return Err(Conflict);
      }
      var k := claim.Key();
      if k !in runs || runs[k].caseId != claim.caseId {
        return Err(Forbidden);
      }
      var previous := runs[k];
      if !ValidRecord(k.runId, previous) {
        return Err(Validation);
      }
      if m.target !in Successors(previous.state) {
        return Err(Conflict);
      }
      if previous.state.Running? && !HoldsRight(View().table, claim) {
        return Err(LeaseLost);
      }
      if !WaitBindingOk(m) || m.target.RetryAt? != m.availableAt.Some? {
        return Err(InvalidInput);
      }
      var updated := previous.(state := m.target, leaseOwner := None, leaseUntil := None,
                               waitId := m.waitId, waitGeneration := m.waitGeneration, availableAt := m.availableAt);
      if !ValidRecord(k.runId, updated) {
        return Err(Validation);
      }
      WriteRun(k, updated);
      return Ok(updated);
    }
  }

  lemma OverwriteRun(t: Table, k: RunKey, a: Run, b: Run)
    ensures WithRun(WithRun(t, k, a), k, b) == WithRun(t, k, b)
    ensures k in t.runs && t.runs[k] == a ==> WithRun(t, k, a) == t
  {
  }

  /** `claim_next` as its three statements: wake a due retry, stamp the lease, count it. */
  lemma ClaimNextInSteps(s: Scheduler, k: RunKey, owner: string, lease: int)
    requires k in s.table.runs && Dispatchable(s.table.runs[k], s.table.now)
    requires IsIdentifier(owner) && s.table.runs[k].fencingToken < MAX_BIGINT
    ensures var woken := WakeRetry(s, k);
            && k in woken.table.runs
            && ClaimNext(s, Some(k), owner, lease)
               == (CountDispatch(Stamped(woken, k, owner, lease), k.tenantId), Ok(Some(StampedClaim(woken, k, owner))))
  {
    var r := s.table.runs[k];
    var ready := if r.state.RetryAt? then r.(state := Ready, availableAt := None) else r;
    var woken := WakeRetry(s, k);
    assert woken.table.runs == s.table.runs[k := ready];
    OverwriteRun(s.table, k, ready, Leased(ready, owner, s.table.now + lease));
  }

  lemma BeforeIsIrreflexive(s: Scheduler, k: RunKey)
    requires k in s.queue
    ensures !Before(s, k, k)
  {
    StrLtTotal(k.tenantId, k.tenantId);
  }

  lemma BeforeIsTransitive(s: Scheduler, a: RunKey, b: RunKey, c: RunKey)
    requires a in s.queue && b in s.queue && c in s.queue && Before(s, b, c)
    ensures Before(s, a, b) ==> Before(s, a, c)
  {
    if StrLt(a.tenantId, b.tenantId) && StrLt(b.tenantId, c.tenantId) {
      StrLtTransitive(a.tenantId, b.tenantId, c.tenantId);
    }
  }
}
