/** Exactly when the error code of a refused ledger depends on the order of its rows. */
module InvestigationOrder {
  import opened Common
  import opened Ordering
  import opened Investigation
  import opened InvestigationProperties

  // ---------------------------------------------------------------- the condition

  ghost predicate Collide(a: Evidence, b: Evidence) { a.evidenceId == b.evidenceId || EventOf(a) == EventOf(b) }

  predicate Below(e: Evidence, x: string) { StrLt(e.evidenceId, x) }

  /** The rows with ids below `x` form an admissible ledger by themselves. */
  ghost predicate SmallerAdmissible(g: Gate, obs: seq<Evidence>, x: string) {
    && (forall e :: e in obs && Below(e, x) ==> InScope(g, e))
    && (forall i, j :: 0 <= i < j < |obs| && Below(obs[i], x) && Below(obs[j], x) ==> !Collide(obs[i], obs[j]))
  }

  /** Some row with id `x` is out of scope. */
  ghost predicate ForeignAt(g: Gate, obs: seq<Evidence>, x: string) {
    exists e :: e in obs && e.evidenceId == x && !InScope(g, e)
  }

  predicate CleanAt(g: Gate, e: Evidence, x: string) { e.evidenceId == x && InScope(g, e) }

  /** Two rows in scope carry the id `x`. */
  ghost predicate TwiceAt(g: Gate, obs: seq<Evidence>, x: string) {
    exists i, j :: 0 <= i < j < |obs| && CleanAt(g, obs[i], x) && CleanAt(g, obs[j], x)
  }

  /** A row in scope with id `x` repeats a source event of a smaller id. */
  ghost predicate EchoAt(g: Gate, obs: seq<Evidence>, x: string) {
    exists e, f :: e in obs && f in obs && CleanAt(g, e, x) && Below(f, x) && EventOf(f) == EventOf(e)
  }

  ghost predicate ConflictAt(g: Gate, obs: seq<Evidence>, x: string) { TwiceAt(g, obs, x) || EchoAt(g, obs, x) }

  ghost predicate AmbiguousAt(g: Gate, obs: seq<Evidence>, x: string) {
    SmallerAdmissible(g, obs, x) && ForeignAt(g, obs, x) && ConflictAt(g, obs, x)
  }

  ghost predicate Ambiguous(g: Gate, obs: seq<Evidence>) { exists x :: AmbiguousAt(g, obs, x) }

  // ---------------------------------------------------------------- it does not depend on the order

  lemma SmallerIsOrderFree(g: Gate, a: seq<Evidence>, b: seq<Evidence>, x: string)
    requires multiset(a) == multiset(b) && SmallerAdmissible(g, a, x)
    ensures SmallerAdmissible(g, b, x)
  {
    SameElements(a, b);
    forall i, j | 0 <= i < j < |b| && Below(b[i], x) && Below(b[j], x) ensures !Collide(b[i], b[j]) {
      var p, q := FindPair(b, a, i, j);
      assert !Collide(a[p], a[q]);
    }
  }

  lemma ConflictIsOrderFree(g: Gate, a: seq<Evidence>, b: seq<Evidence>, x: string)
    requires multiset(a) == multiset(b) && ConflictAt(g, a, x)
    ensures ConflictAt(g, b, x)
  {
    SameElements(a, b);
    if TwiceAt(g, a, x) {
      var i, j :| 0 <= i < j < |a| && CleanAt(g, a[i], x) && CleanAt(g, a[j], x);
      var p, q := FindPair(a, b, i, j);
      assert CleanAt(g, b[p], x) && CleanAt(g, b[q], x);
    } else {
      var e, f :| e in a && f in a && CleanAt(g, e, x) && Below(f, x) && EventOf(f) == EventOf(e);
      assert e in b && f in b;
    }
  }

  lemma ForeignIsOrderFree(g: Gate, a: seq<Evidence>, b: seq<Evidence>, x: string)
    requires multiset(a) == multiset(b) && ForeignAt(g, a, x)
    ensures ForeignAt(g, b, x)
  {
    SameElements(a, b);
  }

  /** At most one id can be the first to fail. */
  lemma FirstFailureIsUnique(g: Gate, obs: seq<Evidence>, x: string, y: string)
    requires SmallerAdmissible(g, obs, x) && SmallerAdmissible(g, obs, y)
    requires ForeignAt(g, obs, x) && ConflictAt(g, obs, y)
    ensures x == y
  {
    StrLtTotal(x, y);
    ForeignBelow(g, obs, x, y);
    ConflictBelow(g, obs, x, y);
  }

  lemma ForeignBelow(g: Gate, obs: seq<Evidence>, x: string, y: string)
    requires ForeignAt(g, obs, x)
    ensures StrLt(x, y) ==> !SmallerAdmissible(g, obs, y)
  {
    var e :| e in obs && e.evidenceId == x && !InScope(g, e);
    assert StrLt(x, y) ==> Below(e, y);
  }

  lemma ConflictBelow(g: Gate, obs: seq<Evidence>, x: string, y: string)
    requires ConflictAt(g, obs, y)
    ensures StrLt(y, x) ==> !SmallerAdmissible(g, obs, x)
  {
    if !StrLt(y, x) {
    } else if TwiceAt(g, obs, y) {
      var i, j :| 0 <= i < j < |obs| && CleanAt(g, obs[i], y) && CleanAt(g, obs[j], y);
      assert Below(obs[i], x) && Below(obs[j], x) && Collide(obs[i], obs[j]);
    } else {
      var e, f :| e in obs && f in obs && CleanAt(g, e, y) && Below(f, y) && EventOf(f) == EventOf(e);
      StrLtTransitive(f.evidenceId, y, x);
      StrLtTotal(y, y);
      var i :| 0 <= i < |obs| && obs[i] == e;
      var j :| 0 <= j < |obs| && obs[j] == f;
      assert Below(obs[i], x) && Below(obs[j], x) && Collide(obs[i], obs[j]) && Collide(obs[j], obs[i]);
    }
  }

  // ---------------------------------------------------------------- what the code says

  lemma {:induction false} FirstBad(g: Gate, L: seq<Evidence>) returns (i: int)
    requires LedgerError(g, L).Some?
    ensures 0 <= i < |L| && LedgerError(g, L[..i]).None? && RowError(g, L, i) == LedgerError(g, L)
  {
    var n := |L| - 1;
    if LedgerError(g, L[..n]).Some? {
      i := FirstBad(g, L[..n]);
      assert L[..n][..i] == L[..i];
      RowErrorIsLocal(g, L, n, i);
    } else {
      i := n;
    }
  }

  lemma BelowIsBefore(L: seq<Evidence>, i: int, j: int)
    requires SortedBy(ById, L) && 0 <= i < |L| && 0 <= j < |L| && Below(L[j], L[i].evidenceId)
    ensures j < i
  {
    StrLtTotal(L[i].evidenceId, L[j].evidenceId);
    assert i < j ==> ById(L[i], L[j]);
  }

  lemma PrefixIsSmaller(g: Gate, L: seq<Evidence>, i: int)
    requires SortedBy(ById, L) && 0 <= i < |L| && Admissible(g, L[..i])
    ensures SmallerAdmissible(g, L, L[i].evidenceId)
  {
    var x := L[i].evidenceId;
    forall e | e in L && Below(e, x) ensures InScope(g, e) {
      var j :| 0 <= j < |L| && L[j] == e;
      BelowIsBefore(L, i, j);
      assert L[..i][j] == e;
    }
    forall p, q | 0 <= p < q < |L| && Below(L[p], x) && Below(L[q], x) ensures !Collide(L[p], L[q]) {
      BelowIsBefore(L, i, q);
      assert IdOf(L[..i][p]) != IdOf(L[..i][q]) && EventOf(L[..i][p]) != EventOf(L[..i][q]);
    }
  }

  lemma ConflictIsNamed(g: Gate, L: seq<Evidence>, i: int)
    requires SortedBy(ById, L) && 0 <= i < |L| && Admissible(g, L[..i]) && RowError(g, L, i) == Some(Conflict)
    ensures ConflictAt(g, L, L[i].evidenceId)
  {
    var x := L[i].evidenceId;
    var j :| 0 <= j < i && (SameId(L, j, i) || SameEvent(L, j, i));
    assert L[..i][j] in L[..i];
    if L[j].evidenceId == x {
      assert CleanAt(g, L[j], x) && CleanAt(g, L[i], x);
    } else {
      assert ById(L[j], L[i]);
      assert L[i] in L && L[j] in L && CleanAt(g, L[i], x) && Below(L[j], x) && EventOf(L[j]) == EventOf(L[i]);
    }
  }

  /** The code names the kind of its row, the first bad one of the sorted ledger. */
  lemma CodeIsNamed(g: Gate, L: seq<Evidence>) returns (x: string)
    requires SortedBy(ById, L) && LedgerError(g, L).Some?
    ensures SmallerAdmissible(g, L, x)
    ensures LedgerError(g, L) == Some(Forbidden) ==> ForeignAt(g, L, x)
    ensures LedgerError(g, L) == Some(Conflict) ==> ConflictAt(g, L, x)
    ensures LedgerError(g, L) == Some(Forbidden) || LedgerError(g, L) == Some(Conflict)
  {
    var i := FirstBad(g, L);
    x := L[i].evidenceId;
    NoErrorIff(g, L[..i]);
    PrefixIsSmaller(g, L, i);
    if RowError(g, L, i) == Some(Conflict) {
      ConflictIsNamed(g, L, i);
    } else {
      assert L[i] in L;
    }
  }

  lemma RefusalIsNamed(g: Gate, ps: seq<Proposal>, obs: seq<Evidence>) returns (x: string)
    requires Assess(g, ps, obs).Err?
    ensures SmallerAdmissible(g, obs, x)
    ensures Assess(g, ps, obs) == Err(Forbidden) ==> ForeignAt(g, obs, x)
    ensures Assess(g, ps, obs) == Err(Conflict) ==> ConflictAt(g, obs, x)
    ensures Assess(g, ps, obs) == Err(Forbidden) || Assess(g, ps, obs) == Err(Conflict)
  {
    SortedLedger(obs);
    var L := Sort(ById, obs);
    x := CodeIsNamed(g, L);
    SmallerIsOrderFree(g, L, obs, x);
    if LedgerError(g, L) == Some(Forbidden) {
      ForeignIsOrderFree(g, L, obs, x);
    } else {
      ConflictIsOrderFree(g, L, obs, x);
    }
  }

  // ---------------------------------------------------------------- both orders

  /** Row `i` moved up to position `s`. */
  function MovedUp(L: seq<Evidence>, s: int, i: int): seq<Evidence>
    requires 0 <= s <= i < |L|
  {
    L[..s] + [L[i]] + L[s..i] + L[i + 1..]
  }

  lemma GroupIsBlock(L: seq<Evidence>, s: int, i: int, j: int)
    requires SortedBy(ById, L) && 0 <= s <= j <= i < |L| && L[s].evidenceId == L[i].evidenceId
    ensures L[j].evidenceId == L[s].evidenceId
  {
    StrLtTotal(L[s].evidenceId, L[j].evidenceId);
    assert s < j ==> ById(L[s], L[j]);
    assert j < i ==> ById(L[j], L[i]);
  }

  /** Moving a row up within the rows of its id keeps the ledger sorted. */
  lemma MovingUpKeepsSorted(L: seq<Evidence>, s: int, i: int)
    requires SortedBy(ById, L) && 0 <= s <= i < |L| && L[s].evidenceId == L[i].evidenceId
    ensures var M := MovedUp(L, s, i);
            && |M| == |L| && multiset(M) == multiset(L) && SortedBy(ById, M)
            && M[..s] == L[..s] && M[s] == L[i] && M[i + 1..] == L[i + 1..]
            && forall j :: 0 <= j < |L| ==> M[j].evidenceId == L[j].evidenceId
  {
    var M := MovedUp(L, s, i);
    assert L == L[..s] + L[s..i] + [L[i]] + L[i + 1..];
    forall j | 0 <= j < |L| ensures M[j].evidenceId == L[j].evidenceId {
      if s <= j <= i {
        GroupIsBlock(L, s, i, j);
        if s < j {
          GroupIsBlock(L, s, i, j - 1);
        }
      }
    }
    forall p, q | 0 <= p < q < |M| ensures ById(M[p], M[q]) {
      assert ById(L[p], L[q]);
    }
  }

  /** Where the rows of id `x` begin. */
  lemma {:induction false} GroupStart(L: seq<Evidence>, x: string, i: int) returns (s: int)
    requires SortedBy(ById, L) && 0 <= i < |L| && L[i].evidenceId == x
    ensures 0 <= s <= i && L[s].evidenceId == x
    ensures forall j :: 0 <= j < s ==> Below(L[j], x)
  {
    if i == 0 || L[i - 1].evidenceId != x {
      s := i;
      forall j | 0 <= j < s ensures Below(L[j], x) {
        assert ById(L[j], L[i - 1]) || j == i - 1;
        assert ById(L[i - 1], L[i]);
        if j < i - 1 && L[j].evidenceId != L[i - 1].evidenceId {
          StrLtTransitive(L[j].evidenceId, L[i - 1].evidenceId, x);
        }
      }
    } else {
      s := GroupStart(L, x, i - 1);
    }
  }

  lemma GroupPrefixIsClean(g: Gate, L: seq<Evidence>, x: string, s: int)
    requires SmallerAdmissible(g, L, x) && 0 <= s <= |L| && forall j :: 0 <= j < s ==> Below(L[j], x)
    ensures LedgerError(g, L[..s]).None?
  {
    var K := L[..s];
    forall e | e in K ensures InScope(g, e) {
      var j :| 0 <= j < |K| && K[j] == e;
      assert e == L[j] && e in L;
    }
    forall i, j | 0 <= i < j < |K| ensures IdOf(K[i]) != IdOf(K[j]) && EventOf(K[i]) != EventOf(K[j]) {
      assert !Collide(L[i], L[j]);
    }
    NoErrorIff(g, K);
  }

  /** With a foreign row of the group first, the ledger is refused as out of scope. */
  lemma ForeignFirst(g: Gate, L: seq<Evidence>, x: string) returns (M: seq<Evidence>)
    requires SortedBy(ById, L) && SmallerAdmissible(g, L, x) && ForeignAt(g, L, x)
    ensures SortedBy(ById, M) && multiset(M) == multiset(L) && LedgerError(g, M) == Some(Forbidden)
  {
    var e :| e in L && e.evidenceId == x && !InScope(g, e);
    var i :| 0 <= i < |L| && L[i] == e;
    var s := GroupStart(L, x, i);
    M := MovedUp(L, s, i);
    MovingUpKeepsSorted(L, s, i);
    GroupPrefixIsClean(g, L, x, s);
    PrefixDecides(g, M, s);
  }

  /** With its clean rows first, as a conflict. */
  lemma EchoFirst(g: Gate, L: seq<Evidence>, x: string) returns (M: seq<Evidence>)
    requires SortedBy(ById, L) && SmallerAdmissible(g, L, x) && EchoAt(g, L, x)
    ensures SortedBy(ById, M) && multiset(M) == multiset(L) && LedgerError(g, M) == Some(Conflict)
  {
    var e, f :| e in L && f in L && CleanAt(g, e, x) && Below(f, x) && EventOf(f) == EventOf(e);
    var i :| 0 <= i < |L| && L[i] == e;
    var j :| 0 <= j < |L| && L[j] == f;
    var s := GroupStart(L, x, i);
    BelowIsBefore(L, s, j);
    M := MovedUp(L, s, i);
    MovingUpKeepsSorted(L, s, i);
    GroupPrefixIsClean(g, L, x, s);
    assert M[j] == M[..s][j] == L[..s][j];
    assert SameEvent(M, j, s);
    PrefixDecides(g, M, s);
  }

  /** A clean row right behind another one of its id is a conflict. */
  lemma SecondOfGroup(g: Gate, K: seq<Evidence>, x: string, s: int, j: int) returns (M: seq<Evidence>)
    requires SortedBy(ById, K) && 0 <= s < j < |K| && LedgerError(g, K[..s + 1]).None?
    requires K[s].evidenceId == x && CleanAt(g, K[j], x)
    ensures SortedBy(ById, M) && multiset(M) == multiset(K) && LedgerError(g, M) == Some(Conflict)
  {
    GroupIsBlock(K, s, j, s + 1);
    M := MovedUp(K, s + 1, j);
    MovingUpKeepsSorted(K, s + 1, j);
    assert M[s] == M[..s + 1][s] == K[..s + 1][s];
    assert SameId(M, s, s + 1);
    PrefixDecides(g, M, s + 1);
  }

  lemma TwiceFirst(g: Gate, L: seq<Evidence>, x: string) returns (M: seq<Evidence>)
    requires SortedBy(ById, L) && SmallerAdmissible(g, L, x) && TwiceAt(g, L, x)
    ensures SortedBy(ById, M) && multiset(M) == multiset(L) && LedgerError(g, M) == Some(Conflict)
  {
    var i, j :| 0 <= i < j < |L| && CleanAt(g, L[i], x) && CleanAt(g, L[j], x);
    var s := GroupStart(L, x, i);
    M := MovedUp(L, s, i);
    MovingUpKeepsSorted(L, s, i);
    GroupPrefixIsClean(g, L, x, s);
    PrefixDecides(g, M, s);
    if RowError(g, M, s).None? {
      assert M[j] == M[i + 1..][j - i - 1] == L[i + 1..][j - i - 1];
      M := SecondOfGroup(g, M, x, s, j);
    }
  }

  lemma SortedIsAssessed(g: Gate, ps: seq<Proposal>, M: seq<Evidence>)
    requires SortedBy(ById, M) && LedgerError(g, M).Some?
    ensures Assess(g, ps, M) == Err(LedgerError(g, M).value)
  {
    SortingSortedIsIdle(ById, M);
  }

  // ---------------------------------------------------------------- main results

  /** Two arrangements of the same observations that get different answers. */
  ghost predicate Disagree(g: Gate, ps: seq<Proposal>, obs: seq<Evidence>, a: seq<Evidence>, b: seq<Evidence>) {
    multiset(a) == multiset(obs) && multiset(b) == multiset(obs) && Assess(g, ps, a) != Assess(g, ps, b)
  }

  lemma DisagreementIsAmbiguous(g: Gate, ps: seq<Proposal>, obs: seq<Evidence>, a: seq<Evidence>, b: seq<Evidence>)
    requires Disagree(g, ps, obs, a, b)
    ensures Ambiguous(g, obs)
  {
    OrderDoesNotMatter(g, ps, a, b);
    OrderDoesNotMatter(g, ps, b, a);
    var x := RefusalIsNamed(g, ps, a);
    var y := RefusalIsNamed(g, ps, b);
    SmallerIsOrderFree(g, a, obs, x);
    SmallerIsOrderFree(g, b, obs, y);
    if Assess(g, ps, a) == Err(Forbidden) {
      ForeignIsOrderFree(g, a, obs, x);
      ConflictIsOrderFree(g, b, obs, y);
      FirstFailureIsUnique(g, obs, x, y);
    } else {
      ConflictIsOrderFree(g, a, obs, x);
      ForeignIsOrderFree(g, b, obs, y);
      FirstFailureIsUnique(g, obs, y, x);
    }
    assert AmbiguousAt(g, obs, x);
  }

  lemma AmbiguityDisagrees(g: Gate, ps: seq<Proposal>, obs: seq<Evidence>, x: string)
    returns (a: seq<Evidence>, b: seq<Evidence>)
    requires AmbiguousAt(g, obs, x)
    ensures Disagree(g, ps, obs, a, b)
  {
    SortedLedger(obs);
    var L := Sort(ById, obs);
    SmallerIsOrderFree(g, obs, L, x);
    ForeignIsOrderFree(g, obs, L, x);
    ConflictIsOrderFree(g, obs, L, x);
    a := ForeignFirst(g, L, x);
    if TwiceAt(g, L, x) {
      b := TwiceFirst(g, L, x);
    } else {
      b := EchoFirst(g, L, x);
    }
    SortedIsAssessed(g, ps, a);
    SortedIsAssessed(g, ps, b);
  }

  /** The answer depends on the order of the observations exactly when the first id that fails
      has a foreign row, and beside it two rows in scope or one that repeats a source event of a
      smaller id. */
  lemma AnswerDependsOnOrderIff(g: Gate, ps: seq<Proposal>, obs: seq<Evidence>)
    ensures (exists a, b :: Disagree(g, ps, obs, a, b)) <==> Ambiguous(g, obs)
  {
    if Ambiguous(g, obs) {
      var x :| AmbiguousAt(g, obs, x);
      var a, b := AmbiguityDisagrees(g, ps, obs, x);
    }
    forall a, b | Disagree(g, ps, obs, a, b) ensures Ambiguous(g, obs) {
      DisagreementIsAmbiguous(g, ps, obs, a, b);
    }
  }

  /** Two rows in scope and a foreign one, all with the same id, are such a ledger. */
  lemma SharedIdIsAmbiguous(g: Gate, e: Evidence, e': Evidence, foreign: Evidence)
    requires InScope(g, e) && InScope(g, e') && !InScope(g, foreign)
    requires e.evidenceId == e'.evidenceId == foreign.evidenceId
    ensures Ambiguous(g, [e, e', foreign])
  {
    var obs, x := [e, e', foreign], e.evidenceId;
    StrLtTotal(x, x);
    assert CleanAt(g, obs[0], x) && CleanAt(g, obs[1], x) && obs[2] in obs;
    assert AmbiguousAt(g, obs, x);
  }

  /** So some ledger is refused with two different codes. */
  lemma SomeAnswerDependsOnOrder(ps: seq<Proposal>)
    returns (g: Gate, obs: seq<Evidence>, a: seq<Evidence>, b: seq<Evidence>)
    ensures Disagree(g, ps, obs, a, b)
  {
    var scope := Scope("t", "c", "o");
    g := Gate(scope, map["s" := OrderLedger], Policy(1, 1, 1), 0);
    var e := Evidence(scope, "x", "s", "e", 0, 0, "", None, OrderSnapshot);
    var foreign := e.(sourceId := "");
    SharedIdIsAmbiguous(g, e, e, foreign);
    obs := [e, e, foreign];
    var x :| AmbiguousAt(g, obs, x);
    a, b := AmbiguityDisagrees(g, ps, obs, x);
  }

  /** And otherwise the code is fixed by the rows: a refused, unambiguous ledger is out of scope
      exactly when the first id that fails has a foreign row. */
  lemma UnambiguousCodeIs(g: Gate, ps: seq<Proposal>, obs: seq<Evidence>)
    requires Assess(g, ps, obs).Err? && !Ambiguous(g, obs)
    ensures Assess(g, ps, obs) == Err(Forbidden) <==> exists x :: SmallerAdmissible(g, obs, x) && ForeignAt(g, obs, x)
    ensures Assess(g, ps, obs) == Err(Conflict) <==> exists x :: SmallerAdmissible(g, obs, x) && ConflictAt(g, obs, x)
  {
    var x := RefusalIsNamed(g, ps, obs);
    forall y | SmallerAdmissible(g, obs, y) && ForeignAt(g, obs, y) && ConflictAt(g, obs, x)
      ensures AmbiguousAt(g, obs, x)
    {
      FirstFailureIsUnique(g, obs, y, x);
    }
    forall y | SmallerAdmissible(g, obs, y) && ConflictAt(g, obs, y) && ForeignAt(g, obs, x)
      ensures AmbiguousAt(g, obs, x)
    {
      FirstFailureIsUnique(g, obs, x, y);
    }
  }
}
