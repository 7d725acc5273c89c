/** The revocation cache in front of token introspection, and the guard that re-checks expiry. */
module Introspection {
  import opened Common

  datatype Verdict = Verdict(active: bool, subjectId: Option<string>, tenantId: Option<string>, expiresAt: Option<int>)

  datatype Entry = Entry(key: string, verdict: Verdict, deadline: int)

  /** The dictionary in insertion order; times are readings of the monotonic clock. */
  type Entries = seq<Entry>

  ghost predicate KeysDistinct(es: Entries) {
    es != [] ==> Free(es[1..], es[0].key) && KeysDistinct(es[1..])
  }

  ghost predicate Free(es: Entries, key: string) { forall e :: e in es ==> e.key != key }

  function Find(es: Entries, key: string): Option<Entry>
    ensures Find(es, key).Some? ==> Find(es, key).value in es && Find(es, key).value.key == key
    ensures Find(es, key).None? ==> forall e :: e in es ==> e.key != key
  {
    if es == [] then None else if es[0].key == key then Some(es[0]) else Find(es[1..], key)
  }

  function Remove(es: Entries, key: string): Entries {
    if es == [] then [] else if es[0].key == key then Remove(es[1..], key) else [es[0]] + Remove(es[1..], key)
  }

  function Live(es: Entries, now: int): Entries {
    if es == [] then [] else if es[0].deadline <= now then Live(es[1..], now) else [es[0]] + Live(es[1..], now)
  }

  /** Overwriting keeps the key's place; a new key goes to the end. */
  function Assign(es: Entries, e: Entry): Entries {
    if es == [] then [e] else if es[0].key == e.key then [e] + es[1..] else [es[0]] + Assign(es[1..], e)
  }

  /** Dropping from the front until there is room. */
  function Trim(es: Entries, max: int): Entries {
    if max >= 1 && |es| >= max then Trim(es[1..], max) else es
  }

  // ---------------------------------------------------------------- the cache

  class CachedIntrospector {
    const ttl: int
    const maxEntries: int
    var entries: Entries

    /** Raises on any other parameters. */
    constructor (ttl: int, maxEntries: int)
      requires 0 <= ttl && 1 <= maxEntries
      ensures this.ttl == ttl && this.maxEntries == maxEntries && entries == []
    {
      this.ttl, this.maxEntries, entries := ttl, maxEntries, [];
    }

    ghost predicate Valid()
      reads this
    {
      0 <= ttl && 1 <= maxEntries && |entries| <= maxEntries && KeysDistinct(entries)
    }

    /** The first critical section: serve an unexpired entry, or drop a stale one. */
    method Lookup(key: string, clock: int) returns (served: Option<Verdict>)
      requires Valid()
      modifies this`entries
      ensures Valid()
      ensures served == Served(old(entries), ttl, LookUp(key, clock))
      ensures entries == Step(old(entries), ttl, maxEntries, LookUp(key, clock))
    {
      served := None;
      if ttl > 0 {
        var cached := Find(entries, key);
        if cached.Some? {
          if clock < cached.value.deadline {
            return Some(cached.value.verdict);
          }
          RemoveShrinks(entries, key);
          entries := Remove(entries, key);
        }
      }
    }

    /** The second critical section, after a miss was answered by the issuer. `clock` is read
        for eviction and `stamp` when the entry is written. */
    method Store(key: string, verdict: Verdict, wall: int, clock: int, stamp: int)
      requires Valid()
      modifies this`entries
      ensures Valid()
      ensures entries == Step(old(entries), ttl, maxEntries, Put(key, verdict, wall, clock, stamp))
    {
      if ttl <= 0 || (verdict.expiresAt.Some? && verdict.expiresAt.value <= wall) {
        return;
      }
      if |entries| >= maxEntries {
        Evict(clock);
      }
      AssignGrows(entries, Entry(key, verdict, stamp + ttl));
      entries := Assign(entries, Entry(key, verdict, stamp + ttl));
    }

    /** Makes room for one entry: what has run out goes, and then as many from the front as needed. */
    method Evict(clock: int)
      requires Valid()
      modifies this`entries
      ensures |entries| < maxEntries && KeysDistinct(entries)
      ensures entries == Trim(Live(old(entries), clock), maxEntries)
    {
      LiveShrinks(entries, clock);
      entries := Live(entries, clock);
      ghost var live := entries;
      while |entries| >= maxEntries
        invariant KeysDistinct(entries) && Trim(entries, maxEntries) == Trim(live, maxEntries)
        decreases |entries|
      {
        entries := entries[1..];
      }
    }
  }

  function Stored(es: Entries, ttl: int, max: int, key: string, v: Verdict, wall: int, clock: int, stamp: int)
    : Entries
  {
    if ttl <= 0 || (v.expiresAt.Some? && v.expiresAt.value <= wall) then es
    else Assign(Room(es, max, clock), Entry(key, v, stamp + ttl))
  }

  function Room(es: Entries, max: int, clock: int): Entries {
    if |es| >= max then Trim(Live(es, clock), max) else es
  }

  lemma {:induction false} RemoveShrinks(es: Entries, key: string)
    requires KeysDistinct(es)
    ensures |Remove(es, key)| <= |es| && KeysDistinct(Remove(es, key))
    ensures forall e :: e in Remove(es, key) <==> e in es && e.key != key
  {
    if es != [] {
      RemoveShrinks(es[1..], key);
      assert es == [es[0]] + es[1..];
    }
  }

  lemma {:induction false} LiveShrinks(es: Entries, now: int)
    requires KeysDistinct(es)
    ensures |Live(es, now)| <= |es| && KeysDistinct(Live(es, now))
    ensures forall e :: e in Live(es, now) <==> e in es && now < e.deadline
  {
    if es != [] {
      LiveShrinks(es[1..], now);
      assert es == [es[0]] + es[1..];
    }
  }

  lemma {:induction false} AssignGrows(es: Entries, x: Entry)
    requires KeysDistinct(es)
    ensures |es| <= |Assign(es, x)| <= |es| + 1 && KeysDistinct(Assign(es, x))
    ensures forall e :: e in Assign(es, x) <==> e == x || (e in es && e.key != x.key)
  {
    if es != [] {
      AssignGrows(es[1..], x);
      assert es == [es[0]] + es[1..];
    }
  }

  lemma {:induction false} TrimKeeps(es: Entries, max: int)
    ensures forall e :: e in Trim(es, max) ==> e in es
    ensures KeysDistinct(es) ==> KeysDistinct(Trim(es, max))
    ensures max >= 1 ==> |Trim(es, max)| < max
    decreases |es|
  {
    if max >= 1 && |es| >= max {
      TrimKeeps(es[1..], max);
    }
  }

  // ---------------------------------------------------------------- every history

  datatype Op =
    | LookUp(key: string, clock: int)
    | Put(key: string, verdict: Verdict, wall: int, clock: int, stamp: int)

  function Step(es: Entries, ttl: int, max: int, op: Op): Entries {
    match op
    case LookUp(key, clock) =>
      if ttl > 0 && Find(es, key).Some? && Find(es, key).value.deadline <= clock then Remove(es, key) else es
    case Put(key, v, wall, clock, stamp) => Stored(es, ttl, max, key, v, wall, clock, stamp)
  }

  function Served(es: Entries, ttl: int, op: Op): Option<Verdict> {
    if op.LookUp? && ttl > 0 && Find(es, op.key).Some? && op.clock < Find(es, op.key).value.deadline
    then Some(Find(es, op.key).value.verdict) else None
  }

  ghost predicate History(ess: seq<Entries>, ttl: int, max: int, ops: seq<Op>) {
    && |ess| == |ops| + 1 && ess[0] == []
    && forall i {:trigger ops[i]} :: 0 <= i < |ops| ==> ess[i + 1] == Step(ess[i], ttl, max, ops[i])
  }

  /** Step `i` wrote the entry. */
  ghost predicate WroteAt(ops: seq<Op>, ttl: int, i: int, e: Entry) {
    0 <= i < |ops| && WrittenBy(ops[i], ttl, e)
  }

  ghost predicate Bounded(es: Entries, max: int) { KeysDistinct(es) && |es| <= max }

  /** What a step may have written. */
  ghost predicate WrittenBy(op: Op, ttl: int, e: Entry) {
    && op.Put? && e == Entry(op.key, op.verdict, op.stamp + ttl)
    && (op.verdict.expiresAt.Some? ==> op.wall < op.verdict.expiresAt.value)
  }

  lemma RoomIsMade(es: Entries, max: int, clock: int)
    requires Bounded(es, max) && 1 <= max
    ensures KeysDistinct(Room(es, max, clock)) && |Room(es, max, clock)| < max
    ensures forall e :: e in Room(es, max, clock) ==> e in es
  {
    LiveShrinks(es, clock);
    TrimKeeps(Live(es, clock), max);
  }

  lemma StepKeepsBound(es: Entries, ttl: int, max: int, op: Op)
    requires Bounded(es, max) && 1 <= max
    ensures Bounded(Step(es, ttl, max, op), max)
    ensures forall e :: e in Step(es, ttl, max, op) ==> e in es || WrittenBy(op, ttl, e)
  {
    match op
    case LookUp(key, clock) => RemoveShrinks(es, key);
    case Put(key, v, wall, clock, stamp) =>
      RoomIsMade(es, max, clock);
      AssignGrows(Room(es, max, clock), Entry(key, v, stamp + ttl));
  }

  /** The cache stays within its bound, and everything in it was written by some step. */
  lemma {:induction false} CacheIsBounded(ess: seq<Entries>, ttl: int, max: int, ops: seq<Op>, n: int)
    requires History(ess, ttl, max, ops) && 1 <= max && 0 <= n <= |ops|
    ensures |ess[n]| <= max && KeysDistinct(ess[n])
    ensures forall e :: e in ess[n] ==> exists i :: i < n && WroteAt(ops, ttl, i, e)
  {
    if n != 0 {
      CacheIsBounded(ess, ttl, max, ops, n - 1);
      StepKeepsBound(ess[n - 1], ttl, max, ops[n - 1]);
      forall e | e in ess[n] ensures exists i :: i < n && WroteAt(ops, ttl, i, e) {
        if e in ess[n - 1] {
          var i :| i < n - 1 && WroteAt(ops, ttl, i, e);
        } else {
          assert WroteAt(ops, ttl, n - 1, e);
        }
      }
    }
  }

  /** A served verdict is the issuer's own answer for that key, stored less than `ttl` ago. */
  lemma ServedIsFresh(ess: seq<Entries>, ttl: int, max: int, ops: seq<Op>, n: int) returns (i: int)
    requires History(ess, ttl, max, ops) && 1 <= max && 0 <= n < |ops| && Served(ess[n], ttl, ops[n]).Some?
    ensures 0 <= i < n && ops[i].Put? && ops[i].key == ops[n].key
    ensures ops[i].verdict == Served(ess[n], ttl, ops[n]).value && ops[n].clock - ops[i].stamp < ttl
    ensures ops[i].verdict.expiresAt.Some? ==> ops[i].wall < ops[i].verdict.expiresAt.value
  {
    CacheIsBounded(ess, ttl, max, ops, n);
    var e := Find(ess[n], ops[n].key).value;
    i :| i < n && WroteAt(ops, ttl, i, e);
  }

  // ---------------------------------------------------------------- expiry

  lemma {:induction false} AssignedIsFound(es: Entries, e: Entry)
    ensures Find(Assign(es, e), e.key) == Some(e)
  {
    if es != [] && es[0].key != e.key {
      AssignedIsFound(es[1..], e);
    }
  }

  /** Some reader at or after the write is served the verdict past its own expiry; `offset` takes
      a reading of the monotonic clock to the wall clock. */
  ghost predicate OutlivesToken(es: Entries, ttl: int, op: Op, offset: int)
    requires op.Put? && op.verdict.expiresAt.Some?
  {
    exists clock :: op.stamp <= clock && Served(es, ttl, LookUp(op.key, clock)) == Some(op.verdict)
                    && op.verdict.expiresAt.value <= clock + offset
  }

  /** Nothing caps an entry at its token's lifetime, and the check against expiry is made on a
      reading from before the issuer was asked. So whatever the cache held, a verdict that is
      written can be served past its expiry exactly when it expires less than `ttl` after the
      write, or before it. */
  lemma ServedPastExpiryIff(es: Entries, ttl: int, max: int, op: Op, offset: int)
    requires op.Put? && 0 < ttl && op.verdict.expiresAt.Some? && op.wall < op.verdict.expiresAt.value
    ensures OutlivesToken(Step(es, ttl, max, op), ttl, op, offset)
            <==> op.verdict.expiresAt.value < op.stamp + offset + ttl
  {
    var es' := Step(es, ttl, max, op);
    AssignedIsFound(Room(es, max, op.clock), Entry(op.key, op.verdict, op.stamp + ttl));
    var expiry := op.verdict.expiresAt.value - offset;
    var clock := if expiry < op.stamp then op.stamp else expiry;
    assert expiry < op.stamp + ttl ==> Served(es', ttl, LookUp(op.key, clock)) == Some(op.verdict);
  }

  datatype Context = Context(subjectId: string, tenantId: string)

  /** `authorize` after local verification: `answer` is what the introspector returned, if one
      is configured. */
  function Authorize(context: Context, answer: Option<Result<Verdict>>, now: int): Result<Context> {
    match answer
    case None => Ok(context)
    case Some(Err(code)) => Err(code)
    case Some(Ok(v)) =>
      if !v.active then Err(Unauthenticated)
      else if v.expiresAt.Some? && v.expiresAt.value <= now then Err(Unauthenticated)
      else if v.subjectId.Some? && v.subjectId.value != context.subjectId then Err(Unauthenticated)
      else if v.tenantId.Some? && v.tenantId.value != context.tenantId then Err(Unauthenticated)
      else Ok(context)
  }

  /** The guard closes the gap: whatever the cache serves, in any history, a request is let
      through only on an active verdict the issuer gave for this token less than `ttl` ago,
      unexpired at the instant of the request. */
  lemma GuardClosesTheGap(ess: seq<Entries>, ttl: int, max: int, ops: seq<Op>, n: int, context: Context, now: int)
    returns (i: int)
    requires History(ess, ttl, max, ops) && 1 <= max && 0 <= n < |ops| && Served(ess[n], ttl, ops[n]).Some?
    requires Authorize(context, Some(Ok(Served(ess[n], ttl, ops[n]).value)), now).Ok?
    ensures 0 <= i < n && ops[i].Put? && ops[i].key == ops[n].key && ops[n].clock - ops[i].stamp < ttl
    ensures ops[i].verdict.active && (ops[i].verdict.expiresAt.Some? ==> now < ops[i].verdict.expiresAt.value)
    ensures ops[i].verdict.tenantId.Some? ==> ops[i].verdict.tenantId.value == context.tenantId
    ensures ops[i].verdict.subjectId.Some? ==> ops[i].verdict.subjectId.value == context.subjectId
  {
    i := ServedIsFresh(ess, ttl, max, ops, n);
  }
}
