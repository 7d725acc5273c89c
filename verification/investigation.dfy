/** The deterministic evidence gate: one pass over the whole ledger, then over the proposal. */
module Investigation {
  import opened Common
  import opened Ordering

  datatype SourceKind = OrderLedger | Carrier | BuyerChannel

  datatype DeliveryStatus = InTransit | Delivered | UnknownStatus

  datatype BuyerAssertion = NotReceived | Received | Unclear

  datatype Content = OrderSnapshot | Logistics(status: DeliveryStatus) | Statement(assertion: BuyerAssertion)

  datatype Scope = Scope(tenantId: string, caseId: string, orderId: string)

  /** Times are in microseconds. */
  datatype Evidence = Evidence(
    scope: Scope, evidenceId: string, sourceId: string, sourceEventId: string,
    observedAt: int, receivedAt: int, original: string, revokedAt: Option<int>, content: Content)

  datatype Claim =
    | OrderRecorded | CarrierReportedDelivered | CarrierReportedInTransit
    | BuyerReportedNotReceived | BuyerReportedReceived

  datatype Proposal = Proposal(claim: Claim, refs: seq<string>)

  datatype Policy = Policy(orderMaxAge: int, carrierMaxAge: int, buyerMaxAge: int)

  datatype Issue = Future | Stale | Revoked | UnknownReference | ClaimNotSupported

  datatype Rejected = Rejected(evidenceId: string, reason: Issue)

  datatype Citation = Citation(evidenceId: string, sourceId: string, observedAt: int, receivedAt: int, original: string)

  datatype Decision = Decision(claim: Claim, accepted: bool, citations: seq<Citation>, rejected: seq<Rejected>)

  datatype Missing =
    | NoOrderSnapshot | NoCarrierObservation | NoBuyerStatement | NoClearCarrierStatus | NoClearBuyerStatement

  datatype ConflictKind = CarrierBuyerDisagreement | BuyerStatementsDisagree

  datatype Clash = Clash(kind: ConflictKind, refs: seq<string>)

  datatype Disposition = NeedsMaterial | HumanReview | RecommendationReady

  datatype Assessment = Assessment(
    disposition: Disposition, decisions: seq<Decision>, missing: seq<Missing>,
    conflicts: seq<Clash>, unavailable: seq<Rejected>)

  /** What the host fixes for an assessment; the model contributes only the proposal. */
  datatype Gate = Gate(scope: Scope, registered: map<string, SourceKind>, policy: Policy, now: int)

  // ---------------------------------------------------------------- one row

  function KindOf(e: Evidence): SourceKind {
    match e.content
    case OrderSnapshot => OrderLedger
    case Logistics(_) => Carrier
    case Statement(_) => BuyerChannel
  }

  function MaxAge(p: Policy, k: SourceKind): int {
    match k
    case OrderLedger => p.orderMaxAge
    case Carrier => p.carrierMaxAge
    case BuyerChannel => p.buyerMaxAge
  }

  function EvidenceIssue(g: Gate, e: Evidence): Option<Issue> {
    if e.receivedAt > g.now || (e.revokedAt.Some? && e.revokedAt.value > g.now) then Some(Future)
    else if e.revokedAt.Some? then Some(Revoked)
    else if g.now - e.observedAt > 1_000_000 * MaxAge(g.policy, KindOf(e)) then Some(Stale)
    else None
  }

  predicate Usable(g: Gate, e: Evidence) { EvidenceIssue(g, e).None? }

  function SupportedClaim(e: Evidence): Option<Claim> {
    match e.content
    case OrderSnapshot => Some(OrderRecorded)
    case Logistics(Delivered) => Some(CarrierReportedDelivered)
    case Logistics(InTransit) => Some(CarrierReportedInTransit)
    case Statement(NotReceived) => Some(BuyerReportedNotReceived)
    case Statement(Received) => Some(BuyerReportedReceived)
    case _ => None
  }

  predicate InScope(g: Gate, e: Evidence) {
    e.scope == g.scope && e.sourceId in g.registered && g.registered[e.sourceId] == KindOf(e)
  }

  // ---------------------------------------------------------------- a sorted ledger

  function ById(a: Evidence, b: Evidence): bool { StrLe(a.evidenceId, b.evidenceId) }

  ghost predicate SameId(L: seq<Evidence>, i: int, j: int)
    requires 0 <= i < |L| && 0 <= j < |L|
  {
    L[i].evidenceId == L[j].evidenceId
  }

  ghost predicate SameEvent(L: seq<Evidence>, i: int, j: int)
    requires 0 <= i < |L| && 0 <= j < |L|
  {
    L[i].sourceId == L[j].sourceId && L[i].sourceEventId == L[j].sourceEventId
  }

  /** Why row `i` of a ledger is refused, if it is. */
  ghost function RowError(g: Gate, L: seq<Evidence>, i: int): Option<ErrorCode>
    requires 0 <= i < |L|
  {
    if !InScope(g, L[i]) then Some(Forbidden)
    else if exists j :: 0 <= j < i && (SameId(L, j, i) || SameEvent(L, j, i)) then Some(Conflict)
    else None
  }

  /** The refusal of the first bad row, if there is one. */
  ghost function LedgerError(g: Gate, L: seq<Evidence>): Option<ErrorCode> {
    if L == [] then None
    else
      var n := |L| - 1;
      var front := LedgerError(g, L[..n]);
      if front.Some? then front else RowError(g, L, n)
  }

  /** The ids of the usable rows that support a claim, in ledger order. */
  ghost function Supporting(g: Gate, L: seq<Evidence>, c: Claim): seq<string> {
    if L == [] then []
    else
      var n := |L| - 1;
      Supporting(g, L[..n], c) + if Usable(g, L[n]) && SupportedClaim(L[n]) == Some(c) then [L[n].evidenceId] else []
  }

  ghost function Unavailable(g: Gate, L: seq<Evidence>): seq<Rejected> {
    if L == [] then []
    else
      var n := |L| - 1;
      Unavailable(g, L[..n]) + if Usable(g, L[n]) then [] else [Rejected(L[n].evidenceId, EvidenceIssue(g, L[n]).value)]
  }

  ghost predicate Available(g: Gate, L: seq<Evidence>, k: SourceKind) {
    exists i :: 0 <= i < |L| && Usable(g, L[i]) && KindOf(L[i]) == k
  }

  ghost function Find(L: seq<Evidence>, id: string): Option<Evidence> {
    if L == [] then None
    else if L[|L| - 1].evidenceId == id then Some(L[|L| - 1])
    else Find(L[..|L| - 1], id)
  }

  // ---------------------------------------------------------------- the assessment, declaratively

  ghost function RefIssue(g: Gate, L: seq<Evidence>, c: Claim, ref: string): Option<Issue> {
    match Find(L, ref)
    case None => Some(UnknownReference)
    case Some(e) =>
      if !Usable(g, e) then EvidenceIssue(g, e)
      else if SupportedClaim(e) != Some(c) then Some(ClaimNotSupported)
      else None
  }

  function Cite(e: Evidence): Citation { Citation(e.evidenceId, e.sourceId, e.observedAt, e.receivedAt, e.original) }

  ghost function Citations(g: Gate, L: seq<Evidence>, c: Claim, refs: seq<string>): seq<Citation> {
    if refs == [] then []
    else
      var n := |refs| - 1;
      Citations(g, L, c, refs[..n]) + if RefIssue(g, L, c, refs[n]).None? then [Cite(Find(L, refs[n]).value)] else []
  }

  ghost function Rejections(g: Gate, L: seq<Evidence>, c: Claim, refs: seq<string>): seq<Rejected> {
    if refs == [] then []
    else
      var n := |refs| - 1;
      var issue := RefIssue(g, L, c, refs[n]);
      Rejections(g, L, c, refs[..n]) + if issue.Some? then [Rejected(refs[n], issue.value)] else []
  }

  ghost function DecisionOn(g: Gate, L: seq<Evidence>, p: Proposal): Decision {
    var refs := Sort(StrLe, p.refs);
    var rejected := Rejections(g, L, p.claim, refs);
    Decision(p.claim, rejected == [], Citations(g, L, p.claim, refs), rejected)
  }

  ghost function DecisionsOn(g: Gate, L: seq<Evidence>, ps: seq<Proposal>): seq<Decision> {
    seq(|ps|, i requires 0 <= i < |ps| => DecisionOn(g, L, ps[i]))
  }

  ghost predicate Claimed(g: Gate, L: seq<Evidence>, c: Claim) { Supporting(g, L, c) != [] }

  function If(b: bool, m: Missing): seq<Missing> { if b then [m] else [] }

  ghost function MissingFrom(g: Gate, L: seq<Evidence>): seq<Missing> {
    If(!Available(g, L, OrderLedger), NoOrderSnapshot)
    + If(!Available(g, L, Carrier), NoCarrierObservation)
    + If(!Available(g, L, BuyerChannel), NoBuyerStatement)
    + If(&& Available(g, L, Carrier)
         && !Claimed(g, L, CarrierReportedDelivered) && !Claimed(g, L, CarrierReportedInTransit),
         NoClearCarrierStatus)
    + If(&& Available(g, L, BuyerChannel)
         && !Claimed(g, L, BuyerReportedNotReceived) && !Claimed(g, L, BuyerReportedReceived),
         NoClearBuyerStatement)
  }

  ghost function ClashOn(g: Gate, L: seq<Evidence>, left: Claim, right: Claim, kind: ConflictKind): seq<Clash> {
    if Claimed(g, L, left) && Claimed(g, L, right)
    then [Clash(kind, Sort(StrLe, Supporting(g, L, left) + Supporting(g, L, right)))] else []
  }

  ghost function ClashesIn(g: Gate, L: seq<Evidence>): seq<Clash> {
    ClashOn(g, L, CarrierReportedDelivered, BuyerReportedNotReceived, CarrierBuyerDisagreement)
    + ClashOn(g, L, BuyerReportedReceived, BuyerReportedNotReceived, BuyerStatementsDisagree)
  }

  ghost predicate AllAccepted(ds: seq<Decision>) { forall i :: 0 <= i < |ds| ==> ds[i].accepted }

  ghost function DispositionOf(ds: seq<Decision>, missing: seq<Missing>, clashes: seq<Clash>): Disposition {
    if clashes != [] || !AllAccepted(ds) then HumanReview
    else if missing != [] then NeedsMaterial
    else RecommendationReady
  }

  /** `assess_investigation` on the ledger sorted by evidence id. */
  ghost function Assess(g: Gate, ps: seq<Proposal>, observations: seq<Evidence>): Result<Assessment> {
    var L := Sort(ById, observations);
    var error := LedgerError(g, L);
    if error.Some? then Err(error.value)
    else
      var ds, missing, clashes := DecisionsOn(g, L, ps), MissingFrom(g, L), ClashesIn(g, L);
      Ok(Assessment(DispositionOf(ds, missing, clashes), ds, missing, clashes, Unavailable(g, L)))
  }

  // ---------------------------------------------------------------- the loops

  /** What the pass over the ledger leaves behind. */
  datatype Tables = Tables(
    byId: map<string, Evidence>, issues: map<string, Issue>, unavailable: seq<Rejected>,
    claims: map<Claim, seq<string>>, kinds: set<SourceKind>)

  ghost predicate DescribesRows(g: Gate, L: seq<Evidence>, byId: map<string, Evidence>, issues: map<string, Issue>) {
    && (forall id :: Find(L, id) == if id in byId then Some(byId[id]) else None)
    && (forall id :: id in issues <==> id in byId && !Usable(g, byId[id]))
    && (forall id :: id in issues ==> Some(issues[id]) == EvidenceIssue(g, byId[id]))
  }

  ghost predicate DescribesClaims(g: Gate, L: seq<Evidence>, claims: map<Claim, seq<string>>) {
    forall c :: DescribesClaim(g, L, claims, c)
  }

  ghost predicate DescribesClaim(g: Gate, L: seq<Evidence>, claims: map<Claim, seq<string>>, c: Claim) {
    Supporting(g, L, c) == (if c in claims then claims[c] else []) && (c in claims <==> Claimed(g, L, c))
  }

  ghost predicate Describes(g: Gate, L: seq<Evidence>, t: Tables) {
    && DescribesRows(g, L, t.byId, t.issues)
    && t.unavailable == Unavailable(g, L)
    && DescribesClaims(g, L, t.claims)
    && (forall k :: k in t.kinds <==> Available(g, L, k))
  }

  function Record(g: Gate, t: Tables, e: Evidence): Tables {
    var byId := t.byId[e.evidenceId := e];
    var issue := EvidenceIssue(g, e);
    if issue.Some? then
      t.(byId := byId, issues := t.issues[e.evidenceId := issue.value],
         unavailable := t.unavailable + [Rejected(e.evidenceId, issue.value)])
    else
      var c := SupportedClaim(e);
      t.(byId := byId, kinds := t.kinds + {KindOf(e)},
         claims := if c.None? then t.claims
                   else t.claims[c.value := (if c.value in t.claims then t.claims[c.value] else []) + [e.evidenceId]])
  }

  lemma FindAfter(L: seq<Evidence>, e: Evidence, id: string)
    ensures Find(L + [e], id) == if id == e.evidenceId then Some(e) else Find(L, id)
  {
  }

  lemma SupportingAfter(g: Gate, L: seq<Evidence>, e: Evidence, c: Claim)
    ensures Supporting(g, L + [e], c)
            == Supporting(g, L, c) + if Usable(g, e) && SupportedClaim(e) == Some(c) then [e.evidenceId] else []
  {
    assert (L + [e])[..|L|] == L;
  }

  lemma UnavailableAfter(g: Gate, L: seq<Evidence>, e: Evidence)
    ensures Unavailable(g, L + [e])
            == Unavailable(g, L) + if Usable(g, e) then [] else [Rejected(e.evidenceId, EvidenceIssue(g, e).value)]
  {
    assert (L + [e])[..|L|] == L;
  }

  lemma AvailableAfter(g: Gate, L: seq<Evidence>, e: Evidence, k: SourceKind)
    ensures Available(g, L + [e], k) <==> Available(g, L, k) || (Usable(g, e) && KindOf(e) == k)
  {
    var L' := L + [e];
    if Available(g, L, k) {
      var i :| 0 <= i < |L| && Usable(g, L[i]) && KindOf(L[i]) == k;
      assert L'[i] == L[i];
    }
    if Usable(g, e) && KindOf(e) == k {
      assert L'[|L|] == e;
    }
  }

  lemma RowsAfter(g: Gate, L: seq<Evidence>, t: Tables, e: Evidence)
    requires DescribesRows(g, L, t.byId, t.issues) && e.evidenceId !in t.byId
    ensures DescribesRows(g, L + [e], Record(g, t, e).byId, Record(g, t, e).issues)
  {
    forall id ensures Find(L + [e], id) == if id == e.evidenceId then Some(e) else Find(L, id) {
      FindAfter(L, e, id);
    }
  }

  lemma ClaimsAfter(g: Gate, L: seq<Evidence>, t: Tables, e: Evidence)
    requires DescribesClaims(g, L, t.claims)
    ensures DescribesClaims(g, L + [e], Record(g, t, e).claims)
  {
    forall c ensures DescribesClaim(g, L + [e], Record(g, t, e).claims, c) {
      SupportingAfter(g, L, e, c);
      assert DescribesClaim(g, L, t.claims, c);
    }
  }

  lemma RecordDescribes(g: Gate, L: seq<Evidence>, t: Tables, e: Evidence)
    requires Describes(g, L, t) && e.evidenceId !in t.byId
    ensures Describes(g, L + [e], Record(g, t, e))
  {
    RowsAfter(g, L, t, e);
    ClaimsAfter(g, L, t, e);
    UnavailableAfter(g, L, e);
    forall k ensures k in Record(g, t, e).kinds <==> Available(g, L + [e], k) {
      AvailableAfter(g, L, e, k);
    }
  }

  function EventOf(e: Evidence): (string, string) { (e.sourceId, e.sourceEventId) }

  /** `ids` and `events` are those of the first `i` rows. */
  ghost predicate Seen(L: seq<Evidence>, i: int, ids: set<string>, events: set<(string, string)>)
    requires 0 <= i <= |L|
  {
    && ids == (set j | 0 <= j < i :: L[j].evidenceId)
    && events == (set j | 0 <= j < i :: EventOf(L[j]))
  }

  lemma SeenDecides(g: Gate, L: seq<Evidence>, i: int, ids: set<string>, events: set<(string, string)>)
    requires 0 <= i < |L| && Seen(L, i, ids, events)
    ensures RowError(g, L, i) == if !InScope(g, L[i]) then Some(Forbidden)
                                 else if L[i].evidenceId in ids || EventOf(L[i]) in events then Some(Conflict)
                                 else None
    ensures Seen(L, i + 1, ids + {L[i].evidenceId}, events + {EventOf(L[i])})
  {
    if L[i].evidenceId in ids {
      var j :| 0 <= j < i && L[j].evidenceId == L[i].evidenceId;
      assert SameId(L, j, i);
    }
    if EventOf(L[i]) in events {
      var j :| 0 <= j < i && EventOf(L[j]) == EventOf(L[i]);
      assert SameEvent(L, j, i);
    }
  }

  method ScanLedger(g: Gate, L: seq<Evidence>) returns (r: Result<Tables>)
    ensures LedgerError(g, L).Some? ==> r == Err(LedgerError(g, L).value)
    ensures LedgerError(g, L).None? ==> r.Ok? && Describes(g, L, r.value)
  {
    var t := Tables(map[], map[], [], map[], {});
    var events: set<(string, string)> := {};
    for i := 0 to |L|
      invariant LedgerError(g, L[..i]).None?
      invariant Describes(g, L[..i], t)
      invariant Seen(L, i, t.byId.Keys, events)
    {
      var e := L[i];
      PrefixDecides(g, L, i);
      SeenDecides(g, L, i, t.byId.Keys, events);
      if !InScope(g, e) {
        return Err(Forbidden);
      }
      if e.evidenceId in t.byId {
        return Err(Conflict);
      }
      if EventOf(e) in events {
        return Err(Conflict);
      }
      RecordDescribes(g, L[..i], t, e);
      events := events + {EventOf(e)};
      ghost var ids := t.byId.Keys;
      t := Record(g, t, e);
      assert t.byId.Keys == ids + {e.evidenceId};
    }
    assert L[..|L|] == L;
    return Ok(t);
  }

  /** A refused row refuses the ledger; otherwise the next prefix is as clean as this one. */
  lemma PrefixDecides(g: Gate, L: seq<Evidence>, i: int)
    requires 0 <= i < |L| && LedgerError(g, L[..i]).None?
    ensures L[..i + 1] == L[..i] + [L[i]] && LedgerError(g, L[..i + 1]) == RowError(g, L, i)
    ensures RowError(g, L, i).Some? ==> LedgerError(g, L) == RowError(g, L, i)
  {
    assert L[..i + 1][..i] == L[..i];
    RowErrorIsLocal(g, L, i + 1, i);
    if RowError(g, L, i).Some? {
      ErrorPersists(g, L, i + 1, |L|);
      assert L[..|L|] == L;
    }
  }

  lemma RowErrorIsLocal(g: Gate, L: seq<Evidence>, n: int, i: int)
    requires 0 <= i < n <= |L|
    ensures RowError(g, L[..n], i) == RowError(g, L, i)
  {
    forall j | 0 <= j < i
      ensures SameId(L[..n], j, i) == SameId(L, j, i) && SameEvent(L[..n], j, i) == SameEvent(L, j, i)
    {
    }
  }

  lemma {:induction false} ErrorPersists(g: Gate, L: seq<Evidence>, i: int, n: int)
    requires 0 <= i <= n <= |L| && LedgerError(g, L[..i]).Some?
    ensures LedgerError(g, L[..n]) == LedgerError(g, L[..i])
  {
    if i < n {
      ErrorPersists(g, L, i, n - 1);
      assert L[..n][..n - 1] == L[..n - 1];
    }
  }

  method DecideClaim(g: Gate, ghost L: seq<Evidence>, t: Tables, p: Proposal) returns (d: Decision)
    requires Describes(g, L, t)
    ensures d == DecisionOn(g, L, p)
  {
    var refs := Sort(StrLe, p.refs);
    var rejected: seq<Rejected>, citations: seq<Citation> := [], [];
    for i := 0 to |refs|
      invariant rejected == Rejections(g, L, p.claim, refs[..i])
      invariant citations == Citations(g, L, p.claim, refs[..i])
    {
      var ref := refs[i];
      assert refs[..i + 1][..i] == refs[..i];
      if ref !in t.byId {
        rejected := rejected + [Rejected(ref, UnknownReference)];
      } else if ref in t.issues {
        rejected := rejected + [Rejected(ref, t.issues[ref])];
      } else if SupportedClaim(t.byId[ref]) != Some(p.claim) {
        rejected := rejected + [Rejected(ref, ClaimNotSupported)];
      } else {
        citations := citations + [Cite(t.byId[ref])];
      }
    }
    assert refs[..|refs|] == refs;
    d := Decision(p.claim, rejected == [], citations, rejected);
  }

  method DecideAll(g: Gate, ghost L: seq<Evidence>, t: Tables, ps: seq<Proposal>) returns (ds: seq<Decision>)
    requires Describes(g, L, t)
    ensures ds == DecisionsOn(g, L, ps)
  {
    ds := [];
    for i := 0 to |ps|
      invariant |ds| == i && forall j :: 0 <= j < i ==> ds[j] == DecisionOn(g, L, ps[j])
    {
      var d := DecideClaim(g, L, t, ps[i]);
      ds := ds + [d];
    }
  }

  method CollectMissing(g: Gate, ghost L: seq<Evidence>, t: Tables) returns (missing: seq<Missing>)
    requires Describes(g, L, t)
    ensures missing == MissingFrom(g, L)
  {
    assert DescribesClaim(g, L, t.claims, CarrierReportedDelivered);
    assert DescribesClaim(g, L, t.claims, CarrierReportedInTransit);
    assert DescribesClaim(g, L, t.claims, BuyerReportedNotReceived);
    assert DescribesClaim(g, L, t.claims, BuyerReportedReceived);
    missing := If(OrderLedger !in t.kinds, NoOrderSnapshot);
    missing := missing + If(Carrier !in t.kinds, NoCarrierObservation);
    missing := missing + If(BuyerChannel !in t.kinds, NoBuyerStatement);
    var clearCarrier := CarrierReportedDelivered in t.claims || CarrierReportedInTransit in t.claims;
    missing := missing + If(Carrier in t.kinds && !clearCarrier, NoClearCarrierStatus);
    var clearBuyer := BuyerReportedNotReceived in t.claims || BuyerReportedReceived in t.claims;
    missing := missing + If(BuyerChannel in t.kinds && !clearBuyer, NoClearBuyerStatement);
  }

  method CollectClashes(g: Gate, ghost L: seq<Evidence>, t: Tables) returns (clashes: seq<Clash>)
    requires Describes(g, L, t)
    ensures clashes == ClashesIn(g, L)
  {
    assert DescribesClaim(g, L, t.claims, CarrierReportedDelivered);
    assert DescribesClaim(g, L, t.claims, BuyerReportedNotReceived);
    assert DescribesClaim(g, L, t.claims, BuyerReportedReceived);
    clashes := [];
    if CarrierReportedDelivered in t.claims && BuyerReportedNotReceived in t.claims {
      clashes := clashes + [Clash(CarrierBuyerDisagreement,
                                  Sort(StrLe, t.claims[CarrierReportedDelivered]
                                              + t.claims[BuyerReportedNotReceived]))];
    }
    if BuyerReportedReceived in t.claims && BuyerReportedNotReceived in t.claims {
      clashes := clashes + [Clash(BuyerStatementsDisagree,
                                  Sort(StrLe, t.claims[BuyerReportedReceived] + t.claims[BuyerReportedNotReceived]))];
    }
  }

  /** The whole gate, as its loops run it. */
  method AssessInvestigation(g: Gate, ps: seq<Proposal>, observations: seq<Evidence>) returns (r: Result<Assessment>)
    ensures r == Assess(g, ps, observations)
  {
    var L := Sort(ById, observations);
    var scanned := ScanLedger(g, L);
    if scanned.Err? {
      return Err(scanned.code);
    }
    var t := scanned.value;
    var ds := DecideAll(g, L, t, ps);
    var missing := CollectMissing(g, L, t);
    var clashes := CollectClashes(g, L, t);
    var disposition := RecommendationReady;
    if missing != [] {
      disposition := NeedsMaterial;
    }
    if clashes != [] || exists i :: 0 <= i < |ds| && !ds[i].accepted {
      disposition := HumanReview;
    }
    return Ok(Assessment(disposition, ds, missing, clashes, t.unavailable));
  }
}
