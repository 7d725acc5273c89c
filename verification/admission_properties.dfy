/** Capacity is never exceeded and retry budgets are conserved, under any interleaving. */
module AdmissionProperties {
  import opened Common
  import opened Runtime
  import opened Admission

  // ---------------------------------------------------------------- capacity

  ghost predicate WithinLimits(cap: Capacity) {
    forall scope :: scope in cap.limits ==> |Active(cap, scope)| <= cap.limits[scope]
  }

  datatype Op =
    | Acquire(claim: Claim, lease: int)
    | Renew(claim: Claim, lease: int)
    | Release(claim: Claim)
    | Configure(scopeKind: string, scopeId: string, maxActive: int)
    | Tick(elapsed: int)

  ghost function ScopeOf(scopeKind: string, scopeId: string): Scope {
    if scopeKind == "global" then Global else Tenant(scopeId)
  }

  ghost function Step(cap: Capacity, op: Op): Capacity {
    match op
    case Acquire(claim, lease) => AcquireSlot(cap, claim, lease).0
    case Renew(claim, lease) => RenewSlot(cap, claim, lease).0
    case Release(claim) => ReleaseSlot(cap, claim)
    case Configure(kind, id, maxActive) => ConfigureLimit(cap, kind, id, maxActive).0
    case Tick(elapsed) => cap.(now := cap.now + elapsed)
  }

  /** The clock never runs back, and a limit is never set below what is already active. */
  ghost predicate Sound(cap: Capacity, op: Op) {
    match op
    case Tick(elapsed) => 0 <= elapsed
    case Configure(kind, id, maxActive) =>
      ConfigureLimit(cap, kind, id, maxActive).1.Ok? ==> |Active(cap, ScopeOf(kind, id))| <= maxActive
    case _ => true
  }

  /** Every operation but a fresh grant leaves each scope with no more active slots. */
  lemma NothingNewBecomesActive(cap: Capacity, op: Op, scope: Scope)
    requires op.Tick? ==> 0 <= op.elapsed
    requires op.Acquire? ==> op.claim.Key() in Active(cap, Global) || AcquireSlot(cap, op.claim, op.lease).0 == cap
    ensures Active(Step(cap, op), scope) <= Active(cap, scope)
  {
  }

  ghost predicate FreshGrant(cap: Capacity, claim: Claim, lease: int) {
    var r := AcquireSlot(cap, claim, lease).1;
    r.Ok? && r.value.Some? && !r.value.value.replayed
  }

  /** A fresh grant adds exactly the claimed run, and only while both scopes have room. */
  lemma GrantAddsOne(cap: Capacity, claim: Claim, lease: int, scope: Scope)
    requires FreshGrant(cap, claim, lease)
    ensures var cap' := AcquireSlot(cap, claim, lease).0;
            && claim.Key() !in Active(cap, scope)
            && Active(cap', scope) == Active(cap, scope)
                                      + (if scope.Global? || scope.id == claim.tenantId then {claim.Key()} else {})
    ensures !ScopeFull(cap, Global) && !ScopeFull(cap, Tenant(claim.tenantId))
  {
    InsertAddsOne(cap, claim.Key(), AcquireSlot(cap, claim, lease).0.slots[claim.Key()], scope);
  }

  lemma InsertAddsOne(cap: Capacity, k: RunKey, slot: Slot, scope: Scope)
    requires !SlotIsLive(cap, k) && cap.now < slot.leaseUntil
    ensures Active(cap.(slots := LiveSlots(cap)[k := slot]), scope)
            == Active(cap, scope) + (if scope.Global? || scope.id == k.tenantId then {k} else {})
  {
  }

  lemma GrantKeepsLimits(cap: Capacity, cap': Capacity, claim: Claim, lease: int)
    requires WithinLimits(cap) && cap'.limits == cap.limits
    requires FreshGrant(cap, claim, lease) && cap' == AcquireSlot(cap, claim, lease).0
    ensures WithinLimits(cap')
  {
    forall scope | scope in cap'.limits ensures |Active(cap', scope)| <= cap'.limits[scope] {
      GrantAddsOne(cap, claim, lease, scope);
      var before, after := Active(cap, scope), Active(cap', scope);
      assert after == before || after == before + {claim.Key()};
    }
  }

  lemma ShrinkingKeepsLimits(cap: Capacity, cap': Capacity)
    requires WithinLimits(cap) && cap'.limits == cap.limits
    requires forall scope :: Active(cap', scope) <= Active(cap, scope)
    ensures WithinLimits(cap')
  {
    forall scope | scope in cap'.limits ensures |Active(cap', scope)| <= cap'.limits[scope] {
      SubsetIsSmaller(Active(cap', scope), Active(cap, scope));
    }
  }

  lemma StepKeepsLimits(cap: Capacity, op: Op)
    requires WithinLimits(cap) && Sound(cap, op)
    ensures WithinLimits(Step(cap, op))
  {
    var cap' := Step(cap, op);
    if op.Configure? {
      if ConfigureLimit(cap, op.scopeKind, op.scopeId, op.maxActive).1.Ok? {
        ReconfigureIsSafeIff(cap, op.scopeKind, op.scopeId, op.maxActive);
      }
    } else if op.Acquire? && op.claim.Key() !in Active(cap, Global) && cap' != cap {
      GrantKeepsLimits(cap, cap', op.claim, op.lease);
    } else {
      forall scope ensures Active(cap', scope) <= Active(cap, scope) {
        NothingNewBecomesActive(cap, op, scope);
      }
      ShrinkingKeepsLimits(cap, cap');
    }
  }

  ghost predicate History(caps: seq<Capacity>, ops: seq<Op>) {
    && |caps| == |ops| + 1
    && forall i {:trigger ops[i]} :: 0 <= i < |ops| ==> caps[i + 1] == Step(caps[i], ops[i])
  }

  /** Capacity safety: from an empty slot table, no interleaving of acquire, renew, release and
      clock advance ever leaves more unexpired slots than a configured limit allows. */
  lemma {:induction false} CapacityIsNeverExceeded(caps: seq<Capacity>, ops: seq<Op>)
    requires History(caps, ops) && caps[0].slots == map[]
    requires forall s :: s in caps[0].limits ==> caps[0].limits[s] >= 0
    requires forall i :: 0 <= i < |ops| ==> Sound(caps[i], ops[i])
    ensures WithinLimits(caps[|ops|])
  {
    var n := |ops|;
    if n == 0 {
      forall scope ensures Active(caps[0], scope) == {} {}
    } else {
      CapacityIsNeverExceeded(caps[..n], ops[..n - 1]);
      StepKeepsLimits(caps[n - 1], ops[n - 1]);
    }
  }

  /** Exactly when reconfiguring keeps the bound: the new limit is not below the active count. */
  lemma ReconfigureIsSafeIff(cap: Capacity, scopeKind: string, scopeId: string, maxActive: int)
    requires WithinLimits(cap) && ConfigureLimit(cap, scopeKind, scopeId, maxActive).1.Ok?
    ensures WithinLimits(ConfigureLimit(cap, scopeKind, scopeId, maxActive).0)
            <==> |Active(cap, ScopeOf(scopeKind, scopeId))| <= maxActive
  {
    var cap' := ConfigureLimit(cap, scopeKind, scopeId, maxActive).0;
    forall scope ensures Active(cap', scope) == Active(cap, scope) {}
  }

  /** Lowering a limit under load breaks the bound until slots drain. */
  lemma LoweredLimitIsExceeded()
    ensures exists cap, maxActive :: WithinLimits(cap)
              && ConfigureLimit(cap, "global", "global", maxActive).1.Ok?
              && !WithinLimits(ConfigureLimit(cap, "global", "global", maxActive).0)
  {
    var a, b := RunKey("t", "a"), RunKey("t", "b");
    var cap := Capacity(0, map[Global := 2], map[a := Slot("c", "w", 1, 9), b := Slot("c", "w", 1, 9)]);
    assert Active(cap, Global) == {a, b};
    assert |{a, b}| == 2;
    assert WithinLimits(cap);
    ReconfigureIsSafeIff(cap, "global", "global", 1);
  }

  /** The dispatch prefilter and the authoritative check agree: a run without a live slot is
      refused for capacity exactly when its tenant is saturated. */
  lemma PrefilterIsExact(cap: Capacity, claim: Claim, lease: int)
    requires lease > 0 && !SlotIsLive(cap, claim.Key())
    ensures AcquireSlot(cap, claim, lease).1 == Err(RateLimited) <==> Saturated(cap, claim.tenantId)
  {
  }

  /** A slot, once granted, is kept by its own claim alone: no other claim renews or frees it
      while it is live. */
  lemma OnlyTheHolderMovesASlot(cap: Capacity, op: Op, k: RunKey)
    requires SlotIsLive(cap, k)
    requires match op
             case Acquire(c, _) => !SlotMatches(cap.slots[k], c)
             case Renew(c, _) => !SlotMatches(cap.slots[k], c)
             case Release(c) => !SlotMatches(cap.slots[k], c)
             case _ => true
    ensures k in Step(cap, op).slots && Step(cap, op).slots[k] == cap.slots[k]
  {
  }

  // ---------------------------------------------------------------- retry budgets

  ghost function Total(m: map<string, int>): int
    decreases |m|
  {
    if m == map[] then 0
    else
      var k :| k in m;
      assert (m - {k}).Keys == m.Keys - {k};
      m[k] + Total(m - {k})
  }

  /** The sum does not depend on the order in which keys are taken out. */
  lemma {:induction false} TotalWithout(m: map<string, int>, k: string)
    requires k in m
    ensures Total(m) == m[k] + Total(m - {k})
    decreases |m|
  {
    var j :| j in m && Total(m) == m[j] + Total(m - {j});
    assert (m - {j}).Keys == m.Keys - {j};
    if j != k {
      TotalWithout(m - {j}, k);
      assert (m - {k}).Keys == m.Keys - {k};
      TotalWithout(m - {k}, j);
      assert m - {j} - {k} == m - {k} - {j};
    }
  }

  lemma TotalWith(m: map<string, int>, k: string, units: int)
    requires k !in m
    ensures Total(m[k := units]) == Total(m) + units
  {
    TotalWithout(m[k := units], k);
    assert m[k := units] - {k} == m;
  }

  /** Conservation: what is spent equals what was reserved, key by key, and fits the ceiling. */
  ghost predicate Conserved(b: Budget) {
    && b.retriesUsed == Total(b.reservations) <= b.maxRetries
    && forall key :: key in b.reservations ==> b.reservations[key] >= 1
  }

  ghost predicate AllConserved(budgets: map<RunKey, Budget>) {
    forall k :: k in budgets ==> Conserved(budgets[k])
  }

  datatype BudgetOp =
    | SetBudget(key: RunKey, maxRetries: int)
    | SpendRetry(key: RunKey, retryKey: string, units: int)

  ghost function BudgetStep(budgets: map<RunKey, Budget>, op: BudgetOp): map<RunKey, Budget> {
    match op
    case SetBudget(k, maxRetries) => ConfigureRetryBudget(budgets, k, maxRetries).0
    case SpendRetry(k, retryKey, units) => ReserveRetry(budgets, k, retryKey, units).0
  }

  ghost predicate BudgetHistory(bs: seq<map<RunKey, Budget>>, ops: seq<BudgetOp>) {
    && |bs| == |ops| + 1
    && forall i {:trigger ops[i]} :: 0 <= i < |ops| ==> bs[i + 1] == BudgetStep(bs[i], ops[i])
  }

  lemma SpendConserves(budgets: map<RunKey, Budget>, k: RunKey, retryKey: string, units: int)
    requires AllConserved(budgets)
    ensures AllConserved(ReserveRetry(budgets, k, retryKey, units).0)
  {
    if k in budgets && retryKey !in budgets[k].reservations {
      TotalWith(budgets[k].reservations, retryKey, units);
    }
  }

  /** Over any history budgets are conserved and a reserved key is never debited again. */
  lemma {:induction false} BudgetsAreConserved(bs: seq<map<RunKey, Budget>>, ops: seq<BudgetOp>, k: RunKey,
      retryKey: string)
    requires BudgetHistory(bs, ops) && AllConserved(bs[0])
    ensures AllConserved(bs[|ops|])
    ensures k in bs[0] && retryKey in bs[0][k].reservations ==>
              && k in bs[|ops|] && retryKey in bs[|ops|][k].reservations
              && bs[|ops|][k].reservations[retryKey] == bs[0][k].reservations[retryKey]
  {
    var n := |ops|;
    if n != 0 {
      BudgetsAreConserved(bs[..n], ops[..n - 1], k, retryKey);
      if ops[n - 1].SpendRetry? {
        SpendConserves(bs[n - 1], ops[n - 1].key, ops[n - 1].retryKey, ops[n - 1].units);
      }
    }
  }

  /** Repeating a reservation, at any later time, debits nothing and succeeds again. */
  lemma RepeatedReservationIsFree(bs: seq<map<RunKey, Budget>>, ops: seq<BudgetOp>, k: RunKey,
      retryKey: string, units: int)
    requires BudgetHistory(bs, ops) && |ops| > 0 && AllConserved(bs[0])
    requires ops[0] == SpendRetry(k, retryKey, units) && ReserveRetry(bs[0], k, retryKey, units).1.Ok?
    ensures var (b, r) := ReserveRetry(bs[|ops|], k, retryKey, units);
            b == bs[|ops|] && r.Ok? && r.value.replayed && 0 <= r.value.remaining
  {
    assert BudgetHistory(bs[1..], ops[1..]);
    if k in bs[0] {
      SpendConserves(bs[0], k, retryKey, units);
    }
    BudgetsAreConserved(bs[1..], ops[1..], k, retryKey);
  }
}
