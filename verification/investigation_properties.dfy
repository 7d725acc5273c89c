/** What the evidence gate decides, for every ledger, order and proposal. */
module InvestigationProperties {
  import opened Common
  import opened Ordering
  import opened Investigation

  // ---------------------------------------------------------------- declarative vocabulary

  function IdOf(e: Evidence): string { e.evidenceId }

  /** A ledger the gate will assess: every row in scope, no id and no source event twice. */
  ghost predicate Admissible(g: Gate, obs: seq<Evidence>) {
    && (forall e :: e in obs ==> InScope(g, e))
    && DistinctBy(IdOf, obs) && DistinctBy(EventOf, obs)
  }

  ghost predicate Supports(g: Gate, obs: seq<Evidence>, c: Claim) {
    exists e :: e in obs && Usable(g, e) && SupportedClaim(e) == Some(c)
  }

  ghost predicate Backs(g: Gate, obs: seq<Evidence>, c: Claim, ref: string) {
    exists e :: e in obs && e.evidenceId == ref && Usable(g, e) && SupportedClaim(e) == Some(c)
  }

  ghost predicate AllBacked(g: Gate, obs: seq<Evidence>, ps: seq<Proposal>) {
    forall i, ref :: 0 <= i < |ps| && ref in ps[i].refs ==> Backs(g, obs, ps[i].claim, ref)
  }

  ghost predicate Complete(g: Gate, obs: seq<Evidence>) {
    && Supports(g, obs, OrderRecorded)
    && (Supports(g, obs, CarrierReportedDelivered) || Supports(g, obs, CarrierReportedInTransit))
    && (Supports(g, obs, BuyerReportedNotReceived) || Supports(g, obs, BuyerReportedReceived))
  }

  ghost predicate Consistent(g: Gate, obs: seq<Evidence>) {
    && !(Supports(g, obs, CarrierReportedDelivered) && Supports(g, obs, BuyerReportedNotReceived))
    && !(Supports(g, obs, BuyerReportedReceived) && Supports(g, obs, BuyerReportedNotReceived))
  }

  // ---------------------------------------------------------------- the sorted ledger

  lemma ByIdIsTotal()
    ensures TotalPreorder(ById)
  {
    forall a: Evidence, b: Evidence ensures ById(a, b) || ById(b, a) {
      StrLtTotal(a.evidenceId, b.evidenceId);
    }
    forall a: Evidence, b: Evidence, c: Evidence | ById(a, b) && ById(b, c) ensures ById(a, c) {
      if a.evidenceId != b.evidenceId && b.evidenceId != c.evidenceId {
        StrLtTransitive(a.evidenceId, b.evidenceId, c.evidenceId);
      }
    }
  }

  lemma StrLeIsTotal()
    ensures TotalPreorder(StrLe)
  {
    forall a, b ensures StrLe(a, b) || StrLe(b, a) {
      StrLtTotal(a, b);
    }
    forall a, b, c | StrLe(a, b) && StrLe(b, c) ensures StrLe(a, c) {
      if a != b && b != c {
        StrLtTransitive(a, b, c);
      }
    }
  }

  lemma SortedLedger(obs: seq<Evidence>)
    ensures SortedBy(ById, Sort(ById, obs)) && multiset(Sort(ById, obs)) == multiset(obs)
    ensures forall e :: e in Sort(ById, obs) <==> e in obs
  {
    ByIdIsTotal();
    SortSorts(ById, obs);
    SameElements(Sort(ById, obs), obs);
  }

  lemma {:induction false} NoErrorIff(g: Gate, L: seq<Evidence>)
    ensures LedgerError(g, L).None? <==> Admissible(g, L)
  {
    if L != [] {
      var n := |L| - 1;
      NoErrorIff(g, L[..n]);
      assert L == L[..n] + [L[n]];
      if Admissible(g, L[..n]) && RowError(g, L, n).None? {
        forall j | 0 <= j < n ensures IdOf(L[j]) != IdOf(L[n]) && EventOf(L[j]) != EventOf(L[n]) {
          assert !SameId(L, j, n) && !SameEvent(L, j, n);
        }
        forall e | e in L ensures InScope(g, e) {
          assert e in L[..n] || e == L[n];
        }
      } else if Admissible(g, L) {
        AdmissiblePrefix(g, L, n);
      }
    }
  }

  lemma AdmissiblePrefix(g: Gate, L: seq<Evidence>, n: int)
    requires Admissible(g, L) && 0 <= n < |L|
    ensures Admissible(g, L[..n]) && RowError(g, L, n).None?
  {
  }

  lemma AdmissibleIsOrderFree(g: Gate, a: seq<Evidence>, b: seq<Evidence>)
    requires multiset(a) == multiset(b) && Admissible(g, a)
    ensures Admissible(g, b)
  {
    SameElements(a, b);
    DistinctIsOrderFree(IdOf, a, b);
    DistinctIsOrderFree(EventOf, a, b);
  }

  /** The gate assesses exactly the admissible ledgers. */
  lemma AssessedIff(g: Gate, ps: seq<Proposal>, obs: seq<Evidence>)
    ensures Assess(g, ps, obs).Ok? <==> Admissible(g, obs)
    ensures Admissible(g, obs) <==> Admissible(g, Sort(ById, obs))
  {
    SortedLedger(obs);
    NoErrorIff(g, Sort(ById, obs));
    if Admissible(g, obs) {
      AdmissibleIsOrderFree(g, obs, Sort(ById, obs));
    }
    if Admissible(g, Sort(ById, obs)) {
      AdmissibleIsOrderFree(g, Sort(ById, obs), obs);
    }
  }

  // ---------------------------------------------------------------- order independence

  lemma SortIsCanonical(a: seq<Evidence>, b: seq<Evidence>)
    requires multiset(a) == multiset(b) && DistinctBy(IdOf, a)
    ensures Sort(ById, a) == Sort(ById, b)
  {
    SortedLedger(a);
    SortedLedger(b);
    var L := Sort(ById, a);
    DistinctIsOrderFree(IdOf, a, L);
    forall x, y | x in L && y in L && ById(x, y) && ById(y, x) ensures x == y {
      StrLtTotal(x.evidenceId, y.evidenceId);
      var i :| 0 <= i < |L| && L[i] == x;
      var j :| 0 <= j < |L| && L[j] == y;
      assert IdOf(L[i]) == IdOf(L[j]);
    }
    SortedIsUnique(ById, L, Sort(ById, b));
  }

  /** Success and result do not depend on the order in which observations are supplied. */
  lemma OrderDoesNotMatter(g: Gate, ps: seq<Proposal>, a: seq<Evidence>, b: seq<Evidence>)
    requires multiset(a) == multiset(b)
    ensures Assess(g, ps, a).Ok? <==> Assess(g, ps, b).Ok?
    ensures Assess(g, ps, a).Ok? ==> Assess(g, ps, a) == Assess(g, ps, b)
    ensures DistinctBy(IdOf, a) ==> Assess(g, ps, a) == Assess(g, ps, b)
  {
    AssessedIff(g, ps, a);
    AssessedIff(g, ps, b);
    if Admissible(g, a) {
      AdmissibleIsOrderFree(g, a, b);
    }
    if Admissible(g, b) {
      AdmissibleIsOrderFree(g, b, a);
    }
    if DistinctBy(IdOf, a) {
      SortIsCanonical(a, b);
    }
  }

  // ---------------------------------------------------------------- what the passes find

  lemma SupportsAfter(g: Gate, L: seq<Evidence>, e: Evidence, c: Claim)
    ensures Supports(g, L + [e], c) <==> Supports(g, L, c) || (Usable(g, e) && SupportedClaim(e) == Some(c))
  {
    assert forall x :: x in L + [e] <==> x in L || x == e;
  }

  lemma {:induction false} ClaimedIff(g: Gate, L: seq<Evidence>, c: Claim)
    ensures Claimed(g, L, c) <==> Supports(g, L, c)
  {
    if L != [] {
      var n := |L| - 1;
      ClaimedIff(g, L[..n], c);
      SupportsAfter(g, L[..n], L[n], c);
      assert L == L[..n] + [L[n]];
    }
  }

  lemma {:induction false} FindFirst(L: seq<Evidence>, id: string)
    ensures Find(L, id).Some? ==> Find(L, id).value in L && Find(L, id).value.evidenceId == id
    ensures Find(L, id).None? ==> forall e :: e in L ==> e.evidenceId != id
  {
    if L != [] {
      FindFirst(L[..|L| - 1], id);
      assert L == L[..|L| - 1] + [L[|L| - 1]];
    }
  }

  /** A reference is accepted exactly when a usable ledger row of that id supports the claim. */
  lemma AcceptedRefIff(g: Gate, L: seq<Evidence>, c: Claim, ref: string)
    requires DistinctBy(IdOf, L)
    ensures RefIssue(g, L, c, ref).None? <==> Backs(g, L, c, ref)
  {
    FindFirst(L, ref);
    if Backs(g, L, c, ref) {
      var e :| e in L && e.evidenceId == ref && Usable(g, e) && SupportedClaim(e) == Some(c);
      var i :| 0 <= i < |L| && L[i] == e;
      var j :| 0 <= j < |L| && L[j] == Find(L, ref).value;
      assert IdOf(L[i]) == IdOf(L[j]);
    }
  }

  ghost predicate Accepted(g: Gate, L: seq<Evidence>, c: Claim, refs: seq<string>) {
    forall ref :: ref in refs ==> RefIssue(g, L, c, ref).None?
  }

  lemma AcceptedAfter(g: Gate, L: seq<Evidence>, c: Claim, refs: seq<string>, r: string)
    ensures Accepted(g, L, c, refs + [r]) <==> Accepted(g, L, c, refs) && RefIssue(g, L, c, r).None?
  {
    assert forall x :: x in refs + [r] <==> x in refs || x == r;
  }

  lemma {:induction false} NoneRejectedIff(g: Gate, L: seq<Evidence>, c: Claim, refs: seq<string>)
    ensures Rejections(g, L, c, refs) == [] <==> Accepted(g, L, c, refs)
  {
    if refs != [] {
      var n := |refs| - 1;
      NoneRejectedIff(g, L, c, refs[..n]);
      AcceptedAfter(g, L, c, refs[..n], refs[n]);
      assert refs == refs[..n] + [refs[n]];
    }
  }

  /** Every reference is either cited or rejected, and a citation quotes the row it names. */
  lemma {:induction false} RefsArePartitioned(g: Gate, L: seq<Evidence>, c: Claim, refs: seq<string>)
    ensures |Citations(g, L, c, refs)| + |Rejections(g, L, c, refs)| == |refs|
    ensures forall x :: x in Citations(g, L, c, refs) ==> x.evidenceId in refs && Quotes(g, L, c, x)
    ensures forall x :: x in Rejections(g, L, c, refs) ==>
              x.evidenceId in refs && RefIssue(g, L, c, x.evidenceId) == Some(x.reason)
  {
    if refs != [] {
      var n := |refs| - 1;
      RefsArePartitioned(g, L, c, refs[..n]);
      assert refs == refs[..n] + [refs[n]];
      FindFirst(L, refs[n]);
      if RefIssue(g, L, c, refs[n]).None? {
        assert Quotes(g, L, c, Cite(Find(L, refs[n]).value));
      }
    }
  }

  ghost predicate Quotes(g: Gate, L: seq<Evidence>, c: Claim, x: Citation) {
    exists e :: e in L && Cite(e) == x && Usable(g, e) && SupportedClaim(e) == Some(c)
  }

  lemma DecisionAcceptedIff(g: Gate, L: seq<Evidence>, p: Proposal)
    requires DistinctBy(IdOf, L)
    ensures DecisionOn(g, L, p).accepted <==> forall ref :: ref in p.refs ==> Backs(g, L, p.claim, ref)
  {
    StrLeIsTotal();
    SortSorts(StrLe, p.refs);
    var refs := Sort(StrLe, p.refs);
    SameElements(refs, p.refs);
    NoneRejectedIff(g, L, p.claim, refs);
    forall ref ensures RefIssue(g, L, p.claim, ref).None? <==> Backs(g, L, p.claim, ref) {
      AcceptedRefIff(g, L, p.claim, ref);
    }
  }

  lemma AllAcceptedIff(g: Gate, L: seq<Evidence>, ps: seq<Proposal>)
    requires DistinctBy(IdOf, L)
    ensures AllAccepted(DecisionsOn(g, L, ps)) <==> AllBacked(g, L, ps)
  {
    var ds := DecisionsOn(g, L, ps);
    forall i | 0 <= i < |ps|
      ensures ds[i].accepted <==> forall ref :: ref in ps[i].refs ==> Backs(g, L, ps[i].claim, ref)
    {
      DecisionAcceptedIff(g, L, ps[i]);
    }
  }

  // ---------------------------------------------------------------- the verdict

  lemma NothingMissingIff(g: Gate, L: seq<Evidence>)
    ensures MissingFrom(g, L) == [] <==> Complete(g, L)
  {
    ClaimedIff(g, L, CarrierReportedDelivered);
    ClaimedIff(g, L, CarrierReportedInTransit);
    ClaimedIff(g, L, BuyerReportedNotReceived);
    ClaimedIff(g, L, BuyerReportedReceived);
    AvailableIff(g, L);
  }

  /** A source kind is available once a usable row of it exists; a clear one implies it. */
  lemma AvailableIff(g: Gate, L: seq<Evidence>)
    ensures Available(g, L, OrderLedger) <==> Supports(g, L, OrderRecorded)
    ensures Supports(g, L, CarrierReportedDelivered) ==> Available(g, L, Carrier)
    ensures Supports(g, L, CarrierReportedInTransit) ==> Available(g, L, Carrier)
    ensures Supports(g, L, BuyerReportedNotReceived) ==> Available(g, L, BuyerChannel)
    ensures Supports(g, L, BuyerReportedReceived) ==> Available(g, L, BuyerChannel)
  {
  }

  lemma NoClashIff(g: Gate, L: seq<Evidence>)
    ensures ClashesIn(g, L) == [] <==> Consistent(g, L)
  {
    ClaimedIff(g, L, CarrierReportedDelivered);
    ClaimedIff(g, L, BuyerReportedNotReceived);
    ClaimedIff(g, L, BuyerReportedReceived);
  }

  lemma VocabularyIsOrderFree(g: Gate, ps: seq<Proposal>, a: seq<Evidence>, b: seq<Evidence>)
    requires forall e :: e in a <==> e in b
    ensures Complete(g, a) <==> Complete(g, b)
    ensures Consistent(g, a) <==> Consistent(g, b)
    ensures AllBacked(g, a, ps) <==> AllBacked(g, b, ps)
  {
  }

  /** The gate equals its declarative specification: the disposition of an admissible ledger
      is decided by completeness, consistency and backing of the cited references alone. */
  lemma DispositionIff(g: Gate, ps: seq<Proposal>, obs: seq<Evidence>)
    requires Admissible(g, obs)
    ensures Assess(g, ps, obs).Ok?
    ensures var d := Assess(g, ps, obs).value.disposition;
            && (d == RecommendationReady <==> Complete(g, obs) && Consistent(g, obs) && AllBacked(g, obs, ps))
            && (d == NeedsMaterial <==> !Complete(g, obs) && Consistent(g, obs) && AllBacked(g, obs, ps))
            && (d == HumanReview <==> !Consistent(g, obs) || !AllBacked(g, obs, ps))
  {
    var L := Sort(ById, obs);
    SortedLedger(obs);
    AssessedIff(g, ps, obs);
    NothingMissingIff(g, L);
    NoClashIff(g, L);
    AllAcceptedIff(g, L, ps);
    VocabularyIsOrderFree(g, ps, obs, L);
  }

  /** The proposal cannot steer the gate: whatever the model cites, the same ledgers are
      refused with the same code, the findings about the ledger are the same, and any two
      proposals that avoid human review get the same disposition. */
  lemma ProposalCannotSteer(g: Gate, p: seq<Proposal>, q: seq<Proposal>, obs: seq<Evidence>)
    ensures Assess(g, p, obs).Err? ==> Assess(g, q, obs) == Assess(g, p, obs)
    ensures Assess(g, p, obs).Ok? ==>
              var a := Assess(g, p, obs).value;
              && Assess(g, q, obs).Ok?
              && (var b := Assess(g, q, obs).value;
                  && a.missing == b.missing && a.conflicts == b.conflicts && a.unavailable == b.unavailable
                  && (a.disposition != HumanReview && b.disposition != HumanReview ==> a.disposition == b.disposition))
  {
  }
}
