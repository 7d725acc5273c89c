/** The two halves together: an outbox that hands events out in any order, and one consumer's
    projection that rebuilds the case log from whatever reaches it. */
module EventPipeline {
  import opened Common
  import opened Events
  import Outbox
  import opened OutboxProperties
  import opened Projection
  import opened ProjectionProperties

  /** `handedOut` collects every event a claim ever returned; `consumed` lists the ingests of
      one consumer of case `caseKey`, in the order they happened. */
  datatype Pipeline = Pipeline(
    outbox: Outbox.State, handedOut: set<DomainEvent>, consumed: seq<DomainEvent>, caseKey: CaseKey)

  datatype Move = Produce(op: Op) | Consume(event: DomainEvent)

  /** A consumer only ever sees events that were handed out, any number of times, in any order. */
  ghost predicate Possible(p: Pipeline, m: Move) {
    match m
    case Produce(op) => Enabled(p.outbox, op)
    case Consume(e) => e in p.handedOut && e.Case() == p.caseKey
  }

  ghost function Returned(o: Outbox.State, op: Op): set<DomainEvent>
    requires Enabled(o, op)
  {
    if op.Claim? then set k | k in op.chosen :: o.rows[k].event else {}
  }

  ghost function Next(p: Pipeline, m: Move): Pipeline
    requires Possible(p, m)
  {
    match m
    case Produce(op) => p.(outbox := Step(p.outbox, op), handedOut := p.handedOut + Returned(p.outbox, op))
    case Consume(e) => p.(consumed := p.consumed + [e])
  }

  ghost predicate PipelineHistory(ps: seq<Pipeline>, ms: seq<Move>) {
    && |ps| == |ms| + 1
    && forall i {:trigger ms[i]} :: 0 <= i < |ms| ==> Possible(ps[i], ms[i]) && ps[i + 1] == Next(ps[i], ms[i])
  }

  ghost predicate InOutbox(o: Outbox.State, e: DomainEvent) {
    var k := Outbox.KeyOf(e.draft);
    k in o.rows && o.rows[k].event == e
  }

  ghost predicate PipelineInv(p: Pipeline) {
    && Good(p.outbox)
    && (forall e :: e in p.handedOut ==> InOutbox(p.outbox, e))
    && (forall e :: e in p.consumed ==> InOutbox(p.outbox, e) && e.Case() == p.caseKey)
  }

  lemma NextKeepsInv(p: Pipeline, m: Move)
    requires PipelineInv(p) && Possible(p, m)
    ensures PipelineInv(Next(p, m))
  {
    if m.Produce? {
      StepKeepsLogs(p.outbox, m.op);
    }
  }

  lemma {:induction false} HistoryKeepsInv(ps: seq<Pipeline>, ms: seq<Move>)
    requires PipelineHistory(ps, ms) && PipelineInv(ps[0])
    ensures PipelineInv(ps[|ms|]) && ps[|ms|].caseKey == ps[0].caseKey
  {
    var n := |ms|;
    if n != 0 {
      HistoryKeepsInv(ps[..n], ms[..n - 1]);
      NextKeepsInv(ps[n - 1], ms[n - 1]);
    }
  }

  lemma ConsumedIsOneLog(p: Pipeline)
    requires PipelineInv(p)
    ensures OneLog(Delivered(p.consumed))
  {
  }

  /** End to end, in every reachable state: no ingest has ever conflicted, what the consumer
      has released is a prefix of the producer's case log, and it is the whole log as soon as
      every logged event has been consumed at least once. */
  lemma EndToEnd(ps: seq<Pipeline>, ms: seq<Move>, now: int, caseKey: CaseKey)
    requires PipelineHistory(ps, ms)
    requires ps[0] == Pipeline(Outbox.State(now, map[], map[], map[]), {}, [], caseKey)
    ensures var p := ps[|ms|];
            && Good(p.outbox)
            && DeliverAll(p.consumed).conflicts == 0
            && DeliverAll(p.consumed).output <= Log(p.outbox, caseKey)
            && ((forall e :: e in Log(p.outbox, caseKey) ==> e in p.consumed)
                ==> DeliverAll(p.consumed).output == Log(p.outbox, caseKey))
  {
    EmptyIsGood(now);
    HistoryKeepsInv(ps, ms);
    var p := ps[|ms|];
    ConsumedIsOneLog(p);
    DeliveryReachesProjection(p.consumed);
    ReleasedIsLogPrefix(p);
    if forall e :: e in Log(p.outbox, caseKey) ==> e in p.consumed {
      AllConsumedIsWholeLog(p);
    }
  }

  lemma ReleasedIsLogPrefix(p: Pipeline)
    requires PipelineInv(p) && OneLog(Delivered(p.consumed))
    ensures DeliverAll(p.consumed).output <= Log(p.outbox, p.caseKey)
  {
    ExactlyOnceInOrder(p.consumed);
    DeliveryReachesProjection(p.consumed);
    var d, log := DeliverAll(p.consumed), Log(p.outbox, p.caseKey);
    forall i | 0 <= i < |d.output| ensures i < |log| && log[i] == d.output[i] {
      var e := d.output[i];
      assert d.stream.applied[i + 1].payload == e;
      StoredAt(p.outbox, Outbox.KeyOf(e.draft));
    }
    if d.output != [] {
      var e := d.output[|d.output| - 1];
      assert d.stream.applied[|d.output|].payload == e;
      StoredAt(p.outbox, Outbox.KeyOf(e.draft));
    }
  }

  lemma AllConsumedIsWholeLog(p: Pipeline)
    requires PipelineInv(p) && OneLog(Delivered(p.consumed))
    requires forall e :: e in Log(p.outbox, p.caseKey) ==> e in p.consumed
    ensures DeliverAll(p.consumed).output == Log(p.outbox, p.caseKey)
  {
    ReleasedIsLogPrefix(p);
    DeliveryReachesProjection(p.consumed);
    var d, log := DeliverAll(p.consumed), Log(p.outbox, p.caseKey);
    forall n | 1 <= n <= |log| ensures HasSequence(Delivered(p.consumed), n) {
      assert log[n - 1] in Delivered(p.consumed) && log[n - 1].caseSeq == n;
    }
    assert |log| <= d.stream.position;
  }
}
