/** Explaining a finding with a language model (src/app/analysis/explain.py,
    src/app/ai/structured.py). The model's replies are arbitrary. */
module Explain {
  import opened Basics
  import opened Tables
  import opened Aggregates
  import opened Rules
  import opened Detection
  import opened DetectionProps
  import opened Gaps

  const CAPABILITY := "proc.risk.diagnose"
  const DEFAULT_ATTEMPTS := 3
  const BACKOFF_BASE_S := 0.5

  datatype RiskExplanation = RiskExplanation(what: string, why: string, dataUsed: seq<Evidence>, confidence: real)

  /** The outcome of one provider call: an error or timeout, output that is not valid JSON
      for the schema, or a parsed explanation. */
  datatype Reply = ProviderFailure | InvalidOutput | Parsed(value: RiskExplanation)

  /** The reply to each call, by call number. */
  type Provider = nat -> Reply

  // ---- structured output with retries -----------------------------------------------------------------

  function ErrorText(r: Reply): string {
    match r
    case ProviderFailure => "provider error"
    case InvalidOutput => "invalid structured output"
    case Parsed(_) => "no valid evidence remained after grounding validation"
  }

  /** The number of the first call, among the first `n`, that answers a parsed value. */
  function FirstParsed(provider: Provider, n: nat): (r: Option<nat>)
    ensures r.Some? ==> r.value < n && provider(r.value).Parsed?
    ensures r.Some? ==> forall i :: 0 <= i < r.value ==> !provider(i).Parsed?
    ensures r.None? ==> forall i :: 0 <= i < n ==> !provider(i).Parsed?
  {
    if n == 0 then None
    else
      var earlier := FirstParsed(provider, n - 1);
      if earlier.Some? then earlier
      else if provider(n - 1).Parsed? then Some(n - 1) else None
  }

  function AiGap(ent: Id, capability: string): GapKey {
    GapKey(ent, CapabilityScope, CapabilityKey(capability), AiUnavailable)
  }

  /** The fail-safe: an open gap for the capability and one audit record. */
  function FailSafe(db: Db, ent: Id, capability: string, error: string, now: int): Db {
    db.(gaps := Opened(db.gaps, AiGap(ent, capability), now),
        audits := db.audits + [Audit(ent, AiUnavailableEvent(capability, error))])
  }

  function LastError(provider: Provider, attempts: int): string {
    if attempts <= 0 then "unknown" else ErrorText(provider(attempts - 1))
  }

  /** Seconds slept after a failed call: half a second, doubled by every call before it. */
  function Pause(before: nat): real {
    BACKOFF_BASE_S * Pow2(before) as real
  }

  /** Seconds slept between `calls` calls. */
  function Slept(calls: nat): real {
    if calls <= 1 then 0.0 else Slept(calls - 1) + Pause(calls - 2)
  }

  lemma {:induction false} SleptIs(calls: nat)
    requires calls > 0
    ensures Slept(calls) == 0.5 * (Pow2(calls - 1) - 1) as real
  {
    if calls > 1 {
      SleptIs(calls - 1);
    }
  }

  /** The loop of calls: until the first parsed value, at most `attempts` of them, sleeping a
      doubling time between calls. */
  method CallProvider(provider: Provider, attempts: int)
    returns (r: Option<RiskExplanation>, calls: nat, slept: real, lastError: string)
    ensures r.Some? ==> 1 <= calls <= attempts && provider(calls - 1) == Parsed(r.value)
    ensures r.None? ==> calls == (if attempts > 0 then attempts else 0) && lastError == LastError(provider, attempts)
    ensures forall i: nat :: i < (if r.Some? then calls - 1 else calls) ==> !provider(i).Parsed?
    ensures slept == Slept(calls)
  {
    calls, slept, lastError := 0, 0.0, "unknown";
    while calls < attempts
      invariant calls == 0 || calls <= attempts
      invariant forall i: nat :: i < calls ==> !provider(i).Parsed?
      invariant slept == Slept(if 0 < calls < attempts then calls + 1 else calls)
      invariant lastError == LastError(provider, calls)
      decreases attempts - calls
    {
      var reply := provider(calls);
      if reply.Parsed? {
        return Some(reply.value), calls + 1, slept, lastError;
      }
      lastError := ErrorText(reply);
      if calls < attempts - 1 {
        slept := slept + Pause(calls);
      }
      calls := calls + 1;
    }
    r := None;
  }

  /** Structured output with retries; after the last failure the fail-safe is written. */
  method GenerateStructured(s: Session, ent: Id, capability: string, provider: Provider, attempts: int, now: int)
    returns (r: Option<RiskExplanation>, calls: nat, slept: real)
    modifies s`db
    ensures r.Some? ==> s.db == old(s.db) && 1 <= calls <= attempts && provider(calls - 1) == Parsed(r.value)
    ensures r.Some? ==> FirstParsed(provider, attempts) == Some(calls - 1)
    ensures r.None? ==> calls == (if attempts > 0 then attempts else 0) && FirstParsed(provider, calls).None?
    ensures r.None? ==> s.db == FailSafe(old(s.db), ent, capability, LastError(provider, attempts), now)
    ensures slept == (if calls == 0 then 0.0 else 0.5 * (Pow2(calls - 1) - 1) as real)
  {
    var lastError;
    r, calls, slept, lastError := CallProvider(provider, attempts);
    if calls > 0 {
      SleptIs(calls);
    }
    if r.Some? {
      return;
    }
    var _ := OpenGap(s, AiGap(ent, capability), now);
    s.db := s.db.(audits := s.db.audits + [Audit(ent, AiUnavailableEvent(capability, lastError))]);
  }

  /** The total sleep never exceeds that of a full failure. */
  lemma SleepBound(attempts: nat, calls: nat)
    requires 1 <= calls <= attempts
    ensures BACKOFF_BASE_S * (Pow2(calls - 1) - 1) as real <= BACKOFF_BASE_S * (Pow2(attempts - 1) - 1) as real
  {
    Pow2Monotone(calls - 1, attempts - 1);
  }

  // ---- the evidence a finding may cite -----------------------------------------------------------------

  function SignalsOf(links: seq<Link>, finding: Id): seq<Evidence> {
    if links == [] then []
    else
      var rest := SignalsOf(links[..|links| - 1], finding);
      var l := links[|links| - 1];
      if l.finding == finding then rest + [SignalEvidence(l.signal)] else rest
  }

  /** A supplier's received orders, as identifiers. */
  function OrdersOf(rows: seq<Row>, ent: Id, supplier: Id): (ids: seq<Id>)
    ensures forall i: Id :: i in ids <==>
              i < |rows| && DelaySample(rows[i], ent) && Cell(rows[i].cols, SupplierId) == Ref(supplier)
  {
    if rows == [] then []
    else
      var n := |rows| - 1;
      var rest := OrdersOf(rows[..n], ent, supplier);
      if DelaySample(rows[n], ent) && Cell(rows[n].cols, SupplierId) == Ref(supplier) then rest + [n] else rest
  }

  function OrderEvidence(ids: seq<Id>): seq<Evidence> {
    seq(|ids|, i requires 0 <= i < |ids| => DomainEvidence(ids[i]))
  }

  function EvidenceOf(db: Db, id: Id): seq<Evidence>
    requires id < |db.findings|
  {
    var f := db.findings[id];
    SignalsOf(db.links, id)
    + if f.kind.SystematicSupplierDelay? && f.supplier.Some?
      then OrderEvidence(OrdersOf(db.rows, f.ent, f.supplier.value)) else []
  }

  method EvidencePayloads(db: Db, id: Id) returns (evidence: seq<Evidence>)
    requires id < |db.findings|
    ensures evidence == EvidenceOf(db, id)
  {
    var f := db.findings[id];
    evidence := [];
    for n := 0 to |db.links|
      invariant evidence == SignalsOf(db.links[..n], id)
    {
      assert db.links[..n + 1][..n] == db.links[..n];
      if db.links[n].finding == id {
        evidence := evidence + [SignalEvidence(db.links[n].signal)];
      }
    }
    assert db.links[..|db.links|] == db.links;
    if f.kind.SystematicSupplierDelay? && f.supplier.Some? {
      var signals, orders := evidence, OrdersOf(db.rows, f.ent, f.supplier.value);
      for n := 0 to |orders|
        invariant evidence == signals + OrderEvidence(orders)[..n]
      {
        evidence := evidence + [DomainEvidence(orders[n])];
      }
    }
  }

  // ---- explaining ------------------------------------------------------------------------------------

  /** The cited references that are evidence of the finding. */
  function Grounded(cited: seq<Evidence>, evidence: seq<Evidence>): (kept: seq<Evidence>)
    ensures forall e :: e in kept <==> e in cited && e in evidence
  {
    if cited == [] then []
    else
      var n := |cited| - 1;
      var rest := Grounded(cited[..n], evidence);
      assert cited == cited[..n] + [cited[n]];
      if cited[n] in evidence then rest + [cited[n]] else rest
  }

  datatype Result = NotFound | LlmUnavailable | Explained(explanation: Explanation)

  function WithAiStatus(db: Db, id: Id, status: AiStatus): Db
    requires id < |db.findings|
  {
    db.(findings := db.findings[id := db.findings[id].(aiStatus := status)])
  }

  predicate Known(db: Db, ent: Id, id: Id) {
    id < |db.findings| && db.findings[id].ent == ent
  }

  function ExplanationFor(ent: Id, id: Id, parsed: RiskExplanation, kept: seq<Evidence>): Explanation {
    Explanation(ent, id, parsed.what, parsed.why, kept, parsed.confidence)
  }

  /** The tables after an attempt to explain a known finding. */
  function ExplainedDb(db: Db, ent: Id, id: Id, provider: Provider, now: int): Db
    requires Known(db, ent, id)
  {
    match FirstParsed(provider, DEFAULT_ATTEMPTS)
    case None =>
      WithAiStatus(FailSafe(db, ent, CAPABILITY, LastError(provider, DEFAULT_ATTEMPTS), now), id, AiDown)
    case Some(n) =>
      var parsed := provider(n).value;
      var kept := Grounded(parsed.dataUsed, EvidenceOf(db, id));
      if kept == [] then WithAiStatus(FailSafe(db, ent, CAPABILITY, ErrorText(provider(n)), now), id, AiDown)
      else WithAiStatus(db.(explanations := db.explanations + [ExplanationFor(ent, id, parsed, kept)]), id, AiReady)
  }

  method ExplainRisk(s: Session, ent: Id, id: Id, provider: Provider, now: int) returns (r: Result)
    modifies s`db
    ensures r.NotFound? <==> !Known(old(s.db), ent, id)
    ensures r.NotFound? ==> s.db == old(s.db)
    ensures !r.NotFound? ==> s.db == ExplainedDb(old(s.db), ent, id, provider, now)
    ensures r.Explained? <==> Known(old(s.db), ent, id) && s.db.findings[id].aiStatus.AiReady?
    ensures r.Explained? ==> s.db.explanations == old(s.db.explanations) + [r.explanation]
    ensures r.NotFound? <==> id >= |old(s.db.findings)| || old(s.db.findings)[id].ent != ent
    ensures r.Explained? ==>
              && r.explanation.ent == ent && r.explanation.finding == id
              && exists n: nat ::
                   && n < 3 && provider(n).Parsed? && (forall m: nat :: m < n ==> !provider(m).Parsed?)
                   && r.explanation.what == provider(n).value.what && r.explanation.why == provider(n).value.why
                   && r.explanation.confidence == provider(n).value.confidence
                   && forall e :: e in r.explanation.dataUsed <==>
                        e in provider(n).value.dataUsed && e in EvidenceOf(old(s.db), id)
  {
    if !Known(s.db, ent, id) {
      return NotFound;
    }
    var evidence := EvidencePayloads(s.db, id);
    var parsed, calls, _ := GenerateStructured(s, ent, CAPABILITY, provider, DEFAULT_ATTEMPTS, now);
    if parsed.None? {
      s.db := WithAiStatus(s.db, id, AiDown);
      return LlmUnavailable;
    }
    var kept := Grounded(parsed.value.dataUsed, evidence);
    if kept == [] {
      var _ := OpenGap(s, AiGap(ent, CAPABILITY), now);
      var event := AiUnavailableEvent(CAPABILITY, ErrorText(Parsed(parsed.value)));
      s.db := s.db.(audits := s.db.audits + [Audit(ent, event)]);
      s.db := WithAiStatus(s.db, id, AiDown);
      return LlmUnavailable;
    }
    var explanation := ExplanationFor(ent, id, parsed.value, kept);
    s.db := s.db.(explanations := s.db.explanations + [explanation]);
    s.db := WithAiStatus(s.db, id, AiReady);
    r := Explained(explanation);
  }

  // ---- grounded success, clean failure -------------------------------------------------------------------

  /** An attempt either adds one explanation that cites a non-empty part of the finding's
      evidence and makes it ready, or adds none, leaves exactly one open gap and one more
      audit record; in either case nothing of the finding but its AI status changes. */
  lemma GroundedOrClean(db: Db, ent: Id, id: Id, provider: Provider, now: int)
    requires Known(db, ent, id) && OneOpenPerKey(db.gaps)
    ensures var after := ExplainedDb(db, ent, id, provider, now);
            && after.findings == db.findings[id := db.findings[id].(aiStatus := after.findings[id].aiStatus)]
            && (after.findings[id].aiStatus.AiReady? ==>
                  && |after.explanations| == |db.explanations| + 1
                  && db.explanations <= after.explanations
                  && after.explanations[|db.explanations|].finding == id
                  && after.explanations[|db.explanations|].dataUsed != []
                  && (forall e :: e in after.explanations[|db.explanations|].dataUsed ==> e in EvidenceOf(db, id))
                  && after.gaps == db.gaps && after.audits == db.audits)
            && (!after.findings[id].aiStatus.AiReady? ==>
                  && after.findings[id].aiStatus.AiDown?
                  && after.explanations == db.explanations
                  && OneOpenPerKey(after.gaps) && HasOpen(after.gaps, AiGap(ent, CAPABILITY))
                  && |after.audits| == |db.audits| + 1 && db.audits <= after.audits)
  {
    OpenCloseEffect(db.gaps, AiGap(ent, CAPABILITY), AiGap(ent, CAPABILITY), now);
    var first := FirstParsed(provider, DEFAULT_ATTEMPTS);
    if first.Some? {
      var kept := Grounded(provider(first.value).value.dataUsed, EvidenceOf(db, id));
    }
  }

  /** An attempt succeeds exactly when the first parsed reply among the first three calls
      cites at least one piece of the finding's evidence. */
  lemma SucceedsExactly(db: Db, ent: Id, id: Id, provider: Provider, now: int)
    requires Known(db, ent, id)
    ensures ExplainedDb(db, ent, id, provider, now).findings[id].aiStatus.AiReady? <==>
            exists n: nat, e :: n < DEFAULT_ATTEMPTS && FirstParsed(provider, DEFAULT_ATTEMPTS) == Some(n)
                                && e in provider(n).value.dataUsed && e in EvidenceOf(db, id)
  {
    var first := FirstParsed(provider, DEFAULT_ATTEMPTS);
    if first.Some? {
      var kept := Grounded(provider(first.value).value.dataUsed, EvidenceOf(db, id));
      if kept != [] {
        assert kept[0] in kept;
      }
    }
  }

  // ---- detection and explanation see the same orders ---------------------------------------------------------

  function LatenessOf(rows: seq<Row>, ids: seq<Id>): seq<int>
    requires forall i :: i in ids ==> i < |rows| && Received(rows[i])
  {
    seq(|ids|, k requires 0 <= k < |ids| => assert ids[k] in ids; LateDays(rows[ids[k]]))
  }

  /** Grouping all received orders by supplier and picking one gives exactly the lateness of
      that supplier's evidence, order by order. */
  lemma {:induction false} SameOrders(rows: seq<Row>, ent: Id, supplier: Id)
    ensures ValuesOf(DelaySamples(rows, ent), supplier) == LatenessOf(rows, OrdersOf(rows, ent, supplier))
  {
    if rows != [] {
      var n := |rows| - 1;
      SameOrders(rows[..n], ent, supplier);
      var samples, rest := DelaySamples(rows[..n], ent), OrdersOf(rows[..n], ent, supplier);
      assert LatenessOf(rows[..n], rest) == LatenessOf(rows, rest);
      if DelaySample(rows[n], ent) {
        var last := (Cell(rows[n].cols, SupplierId).id, LateDays(rows[n]));
        assert (samples + [last])[..|samples|] == samples;
      }
    }
  }

  lemma {:induction false} NoLinksNoSignals(links: seq<Link>, finding: Id)
    requires forall l :: l in links ==> l.finding != finding
    ensures SignalsOf(links, finding) == []
  {
    if links != [] {
      var n := |links| - 1;
      assert links[n] in links;
      NoLinksNoSignals(links[..n], finding);
    }
  }

  /** When the supplier rule fires, the evidence of the supplier's finding is exactly its received
      orders: at least three, that are more than three days late on average. */
  lemma DelayEvidenceSuffices(db: Db, id: Id, supplier: Id)
    requires LinksSound(db.findings, db.links, db.signals)
    requires id < |db.findings| && db.findings[id].kind.SystematicSupplierDelay? &&
                 db.findings[id].supplier == Some(supplier)
    requires SupplierDelayRule(supplier, ValuesOf(DelaySamples(db.rows, db.findings[id].ent), supplier)).Some?
    ensures var orders := OrdersOf(db.rows, db.findings[id].ent, supplier);
            && EvidenceOf(db, id) == OrderEvidence(orders)
            && |EvidenceOf(db, id)| >= 3
            && Sum(LatenessOf(db.rows, orders)) > 3 * |orders|
  {
    var ent := db.findings[id].ent;
    SameOrders(db.rows, ent, supplier);
    SupplierDelayFires(supplier, ValuesOf(DelaySamples(db.rows, ent), supplier));
    assert EvidenceKinds(db.findings[id].kind) == {};
    NoLinksNoSignals(db.links, id);
  }
}
