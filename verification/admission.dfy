/** Cross-process capacity slots and idempotent retry budgets. */
module Admission {
  import opened Common
  import opened Runtime

  datatype Scope = Global | Tenant(id: string)

  datatype Slot = Slot(caseId: string, owner: string, fencingToken: int, leaseUntil: int)

  datatype Capacity = Capacity(now: int, limits: map<Scope, int>, slots: map<RunKey, Slot>)

  datatype Reservation = Reservation(key: RunKey, slot: Slot, replayed: bool)

  // ---------------------------------------------------------------- capacity

  /** The unexpired slots counted against one scope. */
  ghost function Active(cap: Capacity, scope: Scope): set<RunKey> {
    set k | k in cap.slots && cap.now < cap.slots[k].leaseUntil && (scope.Global? || k.tenantId == scope.id)
  }

  ghost predicate ScopeFull(cap: Capacity, scope: Scope) {
    scope in cap.limits && cap.limits[scope] <= |Active(cap, scope)|
  }

  /** The dispatch prefilter: some configured limit that applies to the tenant is reached. */
  ghost predicate Saturated(cap: Capacity, tenantId: string) {
    ScopeFull(cap, Global) || ScopeFull(cap, Tenant(tenantId))
  }

  predicate SlotIsLive(cap: Capacity, k: RunKey) {
    k in cap.slots && cap.now < cap.slots[k].leaseUntil
  }

  predicate SlotMatches(s: Slot, claim: Claim) {
    s.owner == claim.owner && s.fencingToken == claim.fencingToken
  }

  ghost function LiveSlots(cap: Capacity): map<RunKey, Slot> {
    map k | k in cap.slots && cap.now < cap.slots[k].leaseUntil :: cap.slots[k]
  }

  /** Set a limit. A tenant scope named "global" violates the table's CHECK constraint. */
  function ConfigureLimit(cap: Capacity, scopeKind: string, scopeId: string, maxActive: int): (Capacity, Result<()>) {
    if scopeKind !in ["global", "tenant"] || scopeId == "" then (cap, Err(InvalidInput))
    else if scopeKind == "global" && scopeId != "global" then (cap, Err(InvalidInput))
    else if maxActive < 1 then (cap, Err(InvalidInput))
    else if scopeKind == "tenant" && scopeId == "global" then (cap, Err(Database))
    else (cap.(limits := cap.limits[(if scopeKind == "global" then Global else Tenant(scopeId)) := maxActive]), Ok(()))
  }

  /** Reserve a slot; without an applicable limit admission is disabled and nothing is stored. */
  ghost function AcquireSlot(cap: Capacity, claim: Claim, lease: int): (Capacity, Result<Option<Reservation>>) {
    var k, scope := claim.Key(), Tenant(claim.tenantId);
    var slot := Slot(claim.caseId, claim.owner, claim.fencingToken, cap.now + lease);
    if lease <= 0 then (cap, Err(InvalidInput))
    else if Global !in cap.limits && scope !in cap.limits then (cap, Ok(None))
    else if SlotIsLive(cap, k) then
      if SlotMatches(cap.slots[k], claim) then
        var renewed := cap.slots[k].(leaseUntil := cap.now + lease);
        (cap.(slots := cap.slots[k := renewed]), Ok(Some(Reservation(k, slot, true))))
      else (cap, Err(RateLimited))
    else if ScopeFull(cap, Global) || ScopeFull(cap, scope) then (cap, Err(RateLimited))
    else (cap.(slots := LiveSlots(cap)[k := slot]), Ok(Some(Reservation(k, slot, false))))
  }

  function RenewSlot(cap: Capacity, claim: Claim, lease: int): (Capacity, Result<int>) {
    var k := claim.Key();
    if lease <= 0 then (cap, Err(InvalidInput))
    else if SlotIsLive(cap, k) && cap.slots[k].caseId == claim.caseId && SlotMatches(cap.slots[k], claim) then
      (cap.(slots := cap.slots[k := cap.slots[k].(leaseUntil := cap.now + lease)]), Ok(cap.now + lease))
    else (cap, Err(LeaseLost))
  }

  function ReleaseSlot(cap: Capacity, claim: Claim): Capacity {
    var k := claim.Key();
    if k in cap.slots && cap.slots[k].caseId == claim.caseId && SlotMatches(cap.slots[k], claim)
    then cap.(slots := cap.slots - {k})
    else cap
  }

  // ---------------------------------------------------------------- retry budgets

  datatype Budget = Budget(maxRetries: int, retriesUsed: int, reservations: map<string, int>)

  datatype RetryReservation = RetryReservation(units: int, remaining: int, replayed: bool)

  /** CHECK (retries_used <= max_retries) refuses a ceiling below what is already spent. */
  function ConfigureRetryBudget(budgets: map<RunKey, Budget>, k: RunKey, maxRetries: int)
    : (map<RunKey, Budget>, Result<()>)
  {
    if maxRetries < 0 then (budgets, Err(InvalidInput))
    else if k in budgets then
      if budgets[k].retriesUsed > maxRetries then (budgets, Err(Database))
      else (budgets[k := budgets[k].(maxRetries := maxRetries)], Ok(()))
    else (budgets[k := Budget(maxRetries, 0, map[])], Ok(()))
  }

  function ReserveRetry(budgets: map<RunKey, Budget>, k: RunKey, retryKey: string, units: int)
    : (map<RunKey, Budget>, Result<RetryReservation>)
  {
    if retryKey == "" || units < 1 then (budgets, Err(InvalidInput))
    else if k !in budgets then (budgets, Err(Retryable))
    else
      var b := budgets[k];
      var remaining := b.maxRetries - b.retriesUsed;
      if retryKey in b.reservations then
        if b.reservations[retryKey] != units then (budgets, Err(Conflict))
        else (budgets, Ok(RetryReservation(units, remaining, true)))
      else if remaining < units then (budgets, Err(BudgetExhausted))
      else
        (budgets[k := Budget(b.maxRetries, b.retriesUsed + units, b.reservations[retryKey := units])],
         Ok(RetryReservation(units, remaining - units, false)))
  }

  // ---------------------------------------------------------------- the repository

  class AdmissionRepository {
    var now: int
    var limits: map<Scope, int>
    var slots: map<RunKey, Slot>
    var budgets: map<RunKey, Budget>

    constructor (now: int)
      ensures View() == Capacity(now, map[], map[]) && budgets == map[]
    {
      this.now := now;
      limits, slots, budgets := map[], map[], map[];
    }

    function View(): Capacity
      reads this
    {
      Capacity(now, limits, slots)
    }

    method Configure(scopeKind: string, scopeId: string, maxActive: int) returns (r: Result<()>)
      modifies this`limits
      ensures (View(), r) == ConfigureLimit(old(View()), scopeKind, scopeId, maxActive)
    {
      if scopeKind !in ["global", "tenant"] || scopeId == "" {
        return Err(InvalidInput);
      }
      if scopeKind == "global" && scopeId != "global" {
        return Err(InvalidInput);
      }
      if maxActive < 1 {
        return Err(InvalidInput);
      }
      if scopeKind == "tenant" && scopeId == "global" {
        return Err(Database);
      }
      var scope := if scopeKind == "global" then Global else Tenant(scopeId);
      limits := limits[scope := maxActive];
      return Ok(());
    }

    /** DELETE ... WHERE lease_until <= clock_timestamp() */
    method DropExpired()
      modifies this`slots
      ensures slots == LiveSlots(old(View()))
    {
      var rest, kept := slots.Keys, map[];
      while rest != {}
        invariant rest <= slots.Keys && slots == old(slots)
        invariant kept == map k | k in slots && k !in rest && now < slots[k].leaseUntil :: slots[k]
      {
        var k :| k in rest;
        if now < slots[k].leaseUntil {
          kept := kept[k := slots[k]];
        }
        rest := rest - {k};
      }
      slots := kept;
    }

    /** SELECT count(*) over the unexpired slots of one scope. */
    method CountActive(scope: Scope) returns (n: int)
      ensures n == |Active(View(), scope)|
    {
      n := 0;
      var rest := slots.Keys;
      ghost var seen: set<RunKey> := {};
      while rest != {}
        invariant rest <= slots.Keys && n == |seen|
        invariant seen == set k | k in Active(View(), scope) && k !in rest
      {
        var k :| k in rest;
        if now < slots[k].leaseUntil && (scope.Global? || k.tenantId == scope.id) {
          n := n + 1;
          seen := seen + {k};
        }
        rest := rest - {k};
      }
      assert seen == Active(View(), scope);
    }

    method Acquire(claim: Claim, lease: int) returns (r: Result<Option<Reservation>>)
      modifies this`slots
      ensures (View(), r) == AcquireSlot(old(View()), claim, lease)
    {
      if lease <= 0 {
        return Err(InvalidInput);
      }
      var k, scopes := claim.Key(), [Global, Tenant(claim.tenantId)];
      if scopes[0] !in limits && scopes[1] !in limits {
        return Ok(None);
      }
      if k in slots && now < slots[k].leaseUntil {
        if slots[k].owner == claim.owner && slots[k].fencingToken == claim.fencingToken {
          slots := slots[k := slots[k].(leaseUntil := now + lease)];
          return Ok(Some(Reservation(k, Slot(claim.caseId, claim.owner, claim.fencingToken, now + lease), true)));
        }
        return Err(RateLimited);
      }
      var saved := slots;
      DropExpired();
      var i := 0;
      while i < |scopes|
        invariant 0 <= i <= |scopes| && slots == LiveSlots(old(View()))
        invariant forall j :: 0 <= j < i ==> !ScopeFull(old(View()), scopes[j])
      {
        if scopes[i] in limits {
          var count := CountActive(scopes[i]);
          DropKeepsActive(old(View()), scopes[i]);
          if count >= limits[scopes[i]] {
            slots := saved;
            assert ScopeFull(old(View()), scopes[i]);
            return Err(RateLimited);
          }
        }
        i := i + 1;
      }
      assert !ScopeFull(old(View()), scopes[0]) && !ScopeFull(old(View()), scopes[1]);
      var slot := Slot(claim.caseId, claim.owner, claim.fencingToken, now + lease);
      slots := slots[k := slot];
      return Ok(Some(Reservation(k, slot, false)));
    }

    method RenewReservation(claim: Claim, lease: int) returns (r: Result<int>)
      modifies this`slots
      ensures (View(), r) == RenewSlot(old(View()), claim, lease)
    {
      var k := claim.Key();
      if lease <= 0 {
        return Err(InvalidInput);
      }
      if k !in slots || slots[k].leaseUntil <= now || slots[k].caseId != claim.caseId
         || slots[k].owner != claim.owner || slots[k].fencingToken != claim.fencingToken {
        return Err(LeaseLost);
      }
      slots := slots[k := slots[k].(leaseUntil := now + lease)];
      return Ok(now + lease);
    }

    method Release(claim: Claim)
      modifies this`slots
      ensures View() == ReleaseSlot(old(View()), claim)
    {
      var k := claim.Key();
      if k in slots && slots[k].caseId == claim.caseId && slots[k].owner == claim.owner
         && slots[k].fencingToken == claim.fencingToken {
        slots := slots - {k};
      }
    }

    method SetRetryBudget(k: RunKey, maxRetries: int) returns (r: Result<()>)
      modifies this`budgets
      ensures (budgets, r) == ConfigureRetryBudget(old(budgets), k, maxRetries)
    {
      if maxRetries < 0 {
        return Err(InvalidInput);
      }
      if k in budgets && budgets[k].retriesUsed > maxRetries {
        return Err(Database);
      }
      var used, held := 0, map[];
      if k in budgets {
        used, held := budgets[k].retriesUsed, budgets[k].reservations;
      }
      budgets := budgets[k := Budget(maxRetries, used, held)];
      return Ok(());
    }

    method Reserve(k: RunKey, retryKey: string, units: int) returns (r: Result<RetryReservation>)
      modifies this`budgets
      ensures (budgets, r) == ReserveRetry(old(budgets), k, retryKey, units)
    {
      if retryKey == "" || units < 1 {
        return Err(InvalidInput);
      }
      if k !in budgets {
        return Err(Retryable);
      }
      var remaining := budgets[k].maxRetries - budgets[k].retriesUsed;
      if retryKey in budgets[k].reservations {
        if budgets[k].reservations[retryKey] != units {
          return Err(Conflict);
        }
        return Ok(RetryReservation(units, remaining, true));
      }
      if remaining < units {
        return Err(BudgetExhausted);
      }
      var held := budgets[k].reservations[retryKey := units];
      budgets := budgets[k := budgets[k].(reservations := held, retriesUsed := budgets[k].retriesUsed + units)];
      return Ok(RetryReservation(units, remaining - units, false));
    }
  }

  lemma DropKeepsActive(cap: Capacity, scope: Scope)
    ensures Active(cap.(slots := LiveSlots(cap)), scope) == Active(cap, scope)
  {
  }
}
