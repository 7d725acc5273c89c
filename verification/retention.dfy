/** Backup retention: the greedy plan, its closed form, and the files it removes. */
module Retention {
  import opened Common
  import opened Ordering

  /** `takenAt` is in microseconds. */
  datatype Manifest = Manifest(name: string, takenAt: int)

  datatype Policy = Policy(keepLast: int, keepDaily: int) {
    predicate Valid() { keepLast >= 1 && keepDaily >= 0 }
  }

  datatype Reason = WithinNewest | NewestOfItsDay | BeyondRetention

  datatype Decision = Decision(name: string, takenAt: int, keep: bool, reason: Reason)

  function NewerFirst(a: Manifest, b: Manifest): bool { a.takenAt >= b.takenAt }

  /** The UTC day number. */
  function Day(m: Manifest): int { m.takenAt / 86_400_000_000 }

  // ---------------------------------------------------------------- closed form

  ghost function Days(L: seq<Manifest>): set<int> { set i | 0 <= i < |L| :: Day(L[i]) }

  /** Entry `i`, newest first, survives iff it is among the newest `keepLast`, or is the newest
      of its day and fewer than `keepDaily` distinct days come before it. */
  ghost predicate Keeps(L: seq<Manifest>, p: Policy, i: int)
    requires 0 <= i < |L|
  {
    i < p.keepLast || (Day(L[i]) !in Days(L[..i]) && |Days(L[..i])| < p.keepDaily)
  }

  ghost function DecisionAt(L: seq<Manifest>, p: Policy, i: int): Decision
    requires 0 <= i < |L|
  {
    Decision(L[i].name, L[i].takenAt, Keeps(L, p, i),
             if i < p.keepLast then WithinNewest else if Keeps(L, p, i) then NewestOfItsDay else BeyondRetention)
  }

  ghost function Plan(manifests: seq<Manifest>, p: Policy): seq<Decision> {
    var L := Sort(NewerFirst, manifests);
    seq(|L|, i requires 0 <= i < |L| => DecisionAt(L, p, i))
  }

  // ---------------------------------------------------------------- the greedy loop

  ghost function AsSet(days: seq<int>): set<int> { set d | d in days }

  /** The greedy list of days agrees with the days seen until it is full. */
  ghost predicate Tracks(days: seq<int>, seen: set<int>, keepDaily: int) {
    && (forall i, j :: 0 <= i < j < |days| ==> days[i] != days[j])
    && AsSet(days) <= seen
    && (seen <= AsSet(days) || |days| >= keepDaily)
  }

  lemma {:induction false} DistinctCount(days: seq<int>)
    requires forall i, j :: 0 <= i < j < |days| ==> days[i] != days[j]
    ensures |AsSet(days)| == |days|
  {
    if days != [] {
      var n := |days| - 1;
      DistinctCount(days[..n]);
      assert AsSet(days) == AsSet(days[..n]) + {days[n]};
    }
  }

  lemma DaysAfter(L: seq<Manifest>, i: int)
    requires 0 <= i < |L|
    ensures Days(L[..i + 1]) == Days(L[..i]) + {Day(L[i])}
  {
  }

  /** The greedy test and the closed form decide alike. */
  lemma GreedyAgrees(days: seq<int>, seen: set<int>, day: int, keepDaily: int)
    requires Tracks(days, seen, keepDaily)
    ensures |days| < keepDaily && day !in days <==> day !in seen && |seen| < keepDaily
  {
    DistinctCount(days);
    SubsetIsSmaller(AsSet(days), seen);
    if |days| < keepDaily {
      assert seen == AsSet(days);
    }
  }

  /** One round of the loop: the decision on the entry at `i`, given the days kept so far. */
  function Greedy(p: Policy, i: int, days: seq<int>, day: int): (bool, Reason) {
    if i < p.keepLast then (true, WithinNewest)
    else if p.keepDaily != 0 && |days| < p.keepDaily && day !in days then (true, NewestOfItsDay)
    else (false, BeyondRetention)
  }

  lemma GreedyIsClosedForm(L: seq<Manifest>, p: Policy, i: int, days: seq<int>)
    requires p.Valid() && 0 <= i < |L| && Tracks(days, Days(L[..i]), p.keepDaily)
    ensures var (keep, reason) := Greedy(p, i, days, Day(L[i]));
            && Decision(L[i].name, L[i].takenAt, keep, reason) == DecisionAt(L, p, i)
            && Tracks(if keep && Day(L[i]) !in days then days + [Day(L[i])] else days, Days(L[..i + 1]), p.keepDaily)
  {
    var day, seen := Day(L[i]), Days(L[..i]);
    GreedyAgrees(days, seen, day, p.keepDaily);
    DaysAfter(L, i);
    if Greedy(p, i, days, day).0 && day !in days {
      TrackDay(days, seen, day, p.keepDaily);
    } else {
      SkipDay(days, seen, day, p.keepDaily);
    }
  }

  method PlanRetention(manifests: seq<Manifest>, p: Policy) returns (decisions: seq<Decision>)
    requires p.Valid()
    ensures decisions == Plan(manifests, p)
  {
    var L := Sort(NewerFirst, manifests);
    var days: seq<int> := [];
    decisions := [];
    for i := 0 to |L|
      invariant |decisions| == i && forall j :: 0 <= j < i ==> decisions[j] == DecisionAt(L, p, j)
      invariant Tracks(days, Days(L[..i]), p.keepDaily)
    {
      var day := Day(L[i]);
      GreedyIsClosedForm(L, p, i, days);
      var (keep, reason) := Greedy(p, i, days, day);
      if keep && day !in days {
        days := days + [day];
      }
      decisions := decisions + [Decision(L[i].name, L[i].takenAt, keep, reason)];
    }
  }

  lemma TrackDay(days: seq<int>, seen: set<int>, day: int, keepDaily: int)
    requires Tracks(days, seen, keepDaily) && day !in days
    ensures Tracks(days + [day], seen + {day}, keepDaily)
  {
  }

  lemma SkipDay(days: seq<int>, seen: set<int>, day: int, keepDaily: int)
    requires Tracks(days, seen, keepDaily) && (day in days || |days| >= keepDaily || day in seen)
    ensures Tracks(days, seen + {day}, keepDaily)
  {
  }

  // ---------------------------------------------------------------- how much survives

  ghost function KeptUpTo(L: seq<Manifest>, p: Policy, n: nat): seq<Manifest>
    requires n <= |L|
  {
    if n == 0 then [] else KeptUpTo(L, p, n - 1) + if Keeps(L, p, n - 1) then [L[n - 1]] else []
  }

  ghost function Survivors(manifests: seq<Manifest>, p: Policy): seq<Manifest> {
    var L := Sort(NewerFirst, manifests);
    KeptUpTo(L, p, |L|)
  }

  lemma {:induction false} NewestAllKept(L: seq<Manifest>, p: Policy, n: nat)
    requires n <= |L| && n <= p.keepLast
    ensures KeptUpTo(L, p, n) == L[..n]
  {
    if n != 0 {
      NewestAllKept(L, p, n - 1);
      assert L[..n] == L[..n - 1] + [L[n - 1]];
    }
  }

  /** Beyond the newest `keepLast`, survivors are counted by the days seen so far. */
  lemma {:induction false} SurvivorBound(L: seq<Manifest>, p: Policy, n: nat)
    requires p.Valid() && p.keepLast <= n <= |L|
    ensures 0 <= |KeptUpTo(L, p, n)| - p.keepLast <= p.keepDaily
    ensures |KeptUpTo(L, p, n)| - p.keepLast <= |Days(L[..n])|
  {
    if n == p.keepLast {
      NewestAllKept(L, p, n);
    } else {
      SurvivorBound(L, p, n - 1);
      DaysAfter(L, n - 1);
      SubsetIsSmaller(Days(L[..n - 1]), Days(L[..n]));
    }
  }

  /** At most `keepLast + keepDaily` backups survive, and the newest one always does. */
  lemma SurvivorsAreBounded(manifests: seq<Manifest>, p: Policy)
    requires p.Valid()
    ensures |Survivors(manifests, p)| <= p.keepLast + p.keepDaily
    ensures manifests != [] ==> Plan(manifests, p) != [] && Plan(manifests, p)[0].keep
  {
    var L := Sort(NewerFirst, manifests);
    SortedManifests(manifests);
    if |L| <= p.keepLast {
      NewestAllKept(L, p, |L|);
    } else {
      SurvivorBound(L, p, |L|);
    }
  }

  lemma SortedManifests(manifests: seq<Manifest>)
    ensures SortedBy(NewerFirst, Sort(NewerFirst, manifests))
    ensures multiset(Sort(NewerFirst, manifests)) == multiset(manifests) && |Sort(NewerFirst, manifests)| == |manifests|
  {
    assert TotalPreorder(NewerFirst);
    SortSorts(NewerFirst, manifests);
  }

  /** Kept sets grow with either parameter. */
  lemma MorePolicyKeepsMore(L: seq<Manifest>, p: Policy, q: Policy, i: int)
    requires 0 <= i < |L| && p.keepLast <= q.keepLast && p.keepDaily <= q.keepDaily && Keeps(L, p, i)
    ensures Keeps(L, q, i)
  {
  }

  // ---------------------------------------------------------------- planning again

  lemma KeepsIsLocal(L: seq<Manifest>, M: seq<Manifest>, p: Policy, i: int)
    requires 0 <= i < |L| && i < |M| && L[..i + 1] == M[..i + 1]
    ensures Keeps(L, p, i) <==> Keeps(M, p, i)
  {
    assert L[..i] == L[..i + 1][..i] && M[..i] == M[..i + 1][..i];
    assert L[i] == L[..i + 1][i] && M[i] == M[..i + 1][i];
  }

  lemma {:induction false} KeptAreAmong(L: seq<Manifest>, p: Policy, n: nat)
    requires n <= |L|
    ensures forall m :: m in KeptUpTo(L, p, n) ==> exists i :: 0 <= i < n && L[i] == m
    ensures Days(KeptUpTo(L, p, n)) <= Days(L[..n])
  {
    if n != 0 {
      KeptAreAmong(L, p, n - 1);
      assert L[..n] == L[..n - 1] + [L[n - 1]];
    }
    forall d | d in Days(KeptUpTo(L, p, n)) ensures d in Days(L[..n]) {
      var i :| 0 <= i < |KeptUpTo(L, p, n)| && Day(KeptUpTo(L, p, n)[i]) == d;
      assert KeptUpTo(L, p, n)[i] in KeptUpTo(L, p, n);
      var j :| 0 <= j < n && L[j] == KeptUpTo(L, p, n)[i];
      assert L[..n][j] == L[j];
    }
  }

  lemma {:induction false} SurvivorsSurvive(L: seq<Manifest>, p: Policy, n: nat, j: int)
    requires p.Valid() && n <= |L| && 0 <= j < |KeptUpTo(L, p, n)|
    ensures Keeps(KeptUpTo(L, p, n), p, j)
    decreases n
  {
    var S, T := KeptUpTo(L, p, n), KeptUpTo(L, p, n - 1);
    if j < |T| {
      SurvivorsSurvive(L, p, n - 1, j);
      KeepsIsLocal(T, S, p, j);
    } else {
      if n - 1 <= p.keepLast {
        NewestAllKept(L, p, n - 1);
      } else {
        SurvivorBound(L, p, n - 1);
      }
      KeptAreAmong(L, p, n - 1);
      assert S[..j] == T;
      SubsetIsSmaller(Days(T), Days(L[..n - 1]));
    }
  }

  lemma {:induction false} KeptStaySorted(L: seq<Manifest>, p: Policy, n: nat)
    requires n <= |L| && SortedBy(NewerFirst, L)
    ensures SortedBy(NewerFirst, KeptUpTo(L, p, n))
  {
    if n != 0 {
      KeptStaySorted(L, p, n - 1);
      KeptAreAmong(L, p, n - 1);
      var K := KeptUpTo(L, p, n - 1);
      forall j | 0 <= j < |K| ensures NewerFirst(K[j], L[n - 1]) {
        assert K[j] in K;
        var i :| 0 <= i < n - 1 && L[i] == K[j];
        assert NewerFirst(L[i], L[n - 1]);
      }
    }
  }

  lemma PlanKeepsAll(S: seq<Manifest>, p: Policy)
    requires SortedBy(NewerFirst, S) && forall j :: 0 <= j < |S| ==> Keeps(S, p, j)
    ensures Survivors(S, p) == S && forall j :: 0 <= j < |Plan(S, p)| ==> Plan(S, p)[j].keep
  {
    SortingSortedIsIdle(NewerFirst, S);
    AllKept(S, p, |S|);
    assert S[..|S|] == S;
  }

  /** Replanning on the survivors deletes nothing. */
  lemma ReplanningIsIdle(manifests: seq<Manifest>, p: Policy)
    requires p.Valid()
    ensures var S := Survivors(manifests, p);
            Survivors(S, p) == S && forall j :: 0 <= j < |Plan(S, p)| ==> Plan(S, p)[j].keep
  {
    var L, S := Sort(NewerFirst, manifests), Survivors(manifests, p);
    SortedManifests(manifests);
    KeptStaySorted(L, p, |L|);
    forall j | 0 <= j < |S| ensures Keeps(S, p, j) {
      SurvivorsSurvive(L, p, |L|, j);
    }
    PlanKeepsAll(S, p);
  }

  lemma {:induction false} AllKept(S: seq<Manifest>, p: Policy, n: nat)
    requires n <= |S| && forall j :: 0 <= j < |S| ==> Keeps(S, p, j)
    ensures KeptUpTo(S, p, n) == S[..n]
  {
    if n != 0 {
      AllKept(S, p, n - 1);
      assert S[..n] == S[..n - 1] + [S[n - 1]];
    }
  }

  // ---------------------------------------------------------------- deleting files

  predicate IsBackupName(name: string) {
    && 1 <= |name| <= 96 && IsAlphanumeric(name[0])
    && forall i :: 0 <= i < |name| ==> IsAlphanumeric(name[i]) || name[i] in "._-"
  }

  function FilesOf(name: string): set<string> {
    {name + ".dump", name + ".manifest.json", name + ".drill.json"}
  }

  /** The files the first `n` decisions remove; an invalid name stops the loop there. */
  ghost function RemovedUpTo(plan: seq<Decision>, n: nat): set<string>
    requires n <= |plan|
  {
    if n == 0 then {}
    else RemovedUpTo(plan, n - 1) + if plan[n - 1].keep then {} else FilesOf(plan[n - 1].name)
  }

  ghost predicate FirstInvalid(plan: seq<Decision>, n: nat) {
    && n <= |plan|
    && (forall i :: 0 <= i < n && !plan[i].keep ==> IsBackupName(plan[i].name))
    && (n < |plan| ==> !plan[n].keep && !IsBackupName(plan[n].name))
  }

  class BackupDirectory {
    var files: set<string>

    constructor (files: set<string>)
      ensures this.files == files
    {
      this.files := files;
    }

    /** Removes what the plan rejected, up to the first name it cannot accept. `done` counts
        the decisions carried out. */
    method ApplyRetention(plan: seq<Decision>) returns (ok: bool, done: nat)
      modifies this
      ensures (forall i :: 0 <= i < |plan| ==> !plan[i].keep) ==> !ok && done == 0 && files == old(files)
      ensures (exists i :: 0 <= i < |plan| && plan[i].keep) ==>
                FirstInvalid(plan, done) && (ok <==> done == |plan|) && files == old(files) - RemovedUpTo(plan, done)
    {
      if forall i :: 0 <= i < |plan| ==> !plan[i].keep {
        return false, 0;
      }
      for i := 0 to |plan|
        invariant files == old(files) - RemovedUpTo(plan, i)
        invariant forall j :: 0 <= j < i && !plan[j].keep ==> IsBackupName(plan[j].name)
      {
        if !plan[i].keep {
          var name := plan[i].name;
          if !IsBackupName(name) {
            return false, i;
          }
          files := files - {name + ".dump"};
          files := files - {name + ".manifest.json"};
          files := files - {name + ".drill.json"};
        }
      }
      return true, |plan|;
    }
  }

  lemma DumpIsNotJson(a: string, b: string)
    ensures a + ".dump" != b + ".manifest.json" && a + ".dump" != b + ".drill.json"
  {
    var dump, manifest, drill := a + ".dump", b + ".manifest.json", b + ".drill.json";
    assert dump[|dump| - 1] == 'p' && manifest[|manifest| - 1] == 'n' && drill[|drill| - 1] == 'n';
  }

  lemma ManifestIsNotDrill(a: string, b: string)
    ensures a + ".manifest.json" != b + ".drill.json"
  {
    var manifest, drill := a + ".manifest.json", b + ".drill.json";
    assert manifest[|manifest| - 11] == 'n' && drill[|drill| - 11] == '.';
  }

  lemma SameSuffixSameName(a: string, b: string, x: string)
    ensures a + x == b + x ==> a == b
  {
    assert (a + x)[..|a|] == a && (b + x)[..|b|] == b;
  }

  /** The three suffixes cannot be confused: two names share a file only if they are equal. */
  lemma SuffixesDoNotCollide(a: string, b: string, f: string)
    requires f in FilesOf(a) && f in FilesOf(b)
    ensures a == b
  {
    DumpIsNotJson(a, b);
    DumpIsNotJson(b, a);
    ManifestIsNotDrill(a, b);
    ManifestIsNotDrill(b, a);
    SameSuffixSameName(a, b, ".dump");
    SameSuffixSameName(a, b, ".manifest.json");
    SameSuffixSameName(a, b, ".drill.json");
  }

  lemma {:induction false} RemovedIff(plan: seq<Decision>, n: nat, f: string)
    requires n <= |plan|
    ensures f in RemovedUpTo(plan, n) <==> exists i :: 0 <= i < n && !plan[i].keep && f in FilesOf(plan[i].name)
  {
    if n != 0 {
      RemovedIff(plan, n - 1, f);
    }
  }

  /** A file of a kept backup is removed exactly when a rejected backup carries the same name. */
  lemma KeptFileRemovedIff(plan: seq<Decision>, n: nat, k: int, f: string)
    requires n <= |plan| && 0 <= k < |plan| && plan[k].keep && f in FilesOf(plan[k].name)
    ensures f in RemovedUpTo(plan, n) <==> exists i :: 0 <= i < n && !plan[i].keep && plan[i].name == plan[k].name
  {
    RemovedIff(plan, n, f);
    forall i | 0 <= i < n && !plan[i].keep && f in FilesOf(plan[i].name) ensures plan[i].name == plan[k].name {
      SuffixesDoNotCollide(plan[i].name, plan[k].name, f);
    }
  }
}
