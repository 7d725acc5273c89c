/** Shared vocabulary: error codes, results, identifiers and the case scope. */
module Common {

  /** The codes of `ContractViolation`, plus the two ways a step can fail outside them:
      a PostgreSQL constraint (`Database`) and a record validator (`Validation`). */
  datatype ErrorCode =
    | InvalidInput | Unauthenticated | Forbidden | Conflict | LeaseLost | RateLimited
    | Retryable | EvidenceRejected | BudgetExhausted | Database | Validation

  datatype Option<+T> = None | Some(value: T)

  datatype Result<+T> = Ok(value: T) | Err(code: ErrorCode)

  /** `PositiveInt`; the 2^63-1 ceiling is written out only where the source tests it. */
  type Pos = n: int | 1 <= n witness 1

  const MAX_BIGINT: int := 0x7FFF_FFFF_FFFF_FFFF

  datatype CaseKey = CaseKey(tenantId: string, caseId: string)

  datatype RunKey = RunKey(tenantId: string, runId: string)

  predicate IsAlphanumeric(c: char) {
    'A' <= c <= 'Z' || 'a' <= c <= 'z' || '0' <= c <= '9'
  }

  /** The `Identifier` pattern: 1 to 160 characters, the first one alphanumeric. */
  predicate IsIdentifier(s: string) {
    && 1 <= |s| <= 160
    && IsAlphanumeric(s[0])
    && forall i :: 0 <= i < |s| ==> IsAlphanumeric(s[i]) || s[i] in "._:/-"
  }

  lemma SubsetIsSmaller<T>(a: set<T>, b: set<T>)
    requires a <= b
    ensures |a| <= |b|
  {
    assert b == a + (b - a);
  }
}
