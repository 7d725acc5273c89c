/** What an event carries and how one is told from another within its case. */
module Events {
  import opened Common

  /** What a producer supplies: everything about an event but its position in the case log. */
  datatype EventDraft = EventDraft(
    tenantId: string, caseId: string, eventId: string, eventType: string,
    payloadRef: string, payloadSha256: string, runId: Option<string>,
    correlationId: string, causationId: Option<string>, recordedAt: int)

  datatype DomainEvent = DomainEvent(draft: EventDraft, caseSeq: Pos) {
    function Id(): string { draft.eventId }
    function Case(): CaseKey { CaseKey(draft.tenantId, draft.caseId) }
  }

  datatype Decision = Apply | BufferGap | Replay

  /** The pure routing rule for one incoming event. The scopes always agree here:
      the position row is looked up under the event's own tenant and case. */
  function ProjectionDecision(position: nat, incoming: DomainEvent, appliedAtSequence: Option<DomainEvent>)
    : (r: Result<Decision>)
  {
    if incoming.caseSeq <= position then
      if appliedAtSequence != Some(incoming) then Err(Conflict) else Ok(Replay)
    else if appliedAtSequence.Some? then Err(Conflict)
    else if incoming.caseSeq != position + 1 then Ok(BufferGap)
    else Ok(Apply)
  }

  /** Two events that one log could hold together: sharing an id or a position means being equal. */
  predicate Compatible(a: DomainEvent, b: DomainEvent) {
    a.Id() == b.Id() || a.caseSeq == b.caseSeq ==> a == b
  }
}
