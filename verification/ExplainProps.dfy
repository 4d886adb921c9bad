/** What an attempt to explain a finding leaves (src/app/analysis/explain.py:61-215), said of the
    model's replies and the tables. */
module ExplainProps {
  import opened Basics
  import opened Tables
  import opened Gaps
  import opened Explain
  import opened Worker

  // ---- the evidence ------------------------------------------------------------------------------------

  /** A received order of the enterprise, not lost, from the supplier, with both its dates. */
  predicate IsDelivery(r: Row, ent: Id, supplier: Id) {
    && r.entity == PurchaseOrder && r.ent == ent && (r.observability.Fresh? || r.observability.Stale?)
    && Cell(r.cols, SupplierId) == Ref(supplier) && Cell(r.cols, Status) == Text("received")
    && Cell(r.cols, ExpectedAt).Time? && Cell(r.cols, ReceivedAt).Time?
  }

  /** What a finding's explanation may cite: the signals linked to it and, for a supplier that
      delivers late, that supplier's deliveries. */
  predicate IsEvidence(db: Db, id: Id, e: Evidence)
    requires id < |db.findings|
  {
    var f := db.findings[id];
    match e
    case SignalEvidence(k) => Link(id, k) in db.links
    case DomainEvidence(k) =>
      && f.kind.SystematicSupplierDelay? && f.supplier.Some?
      && k < |db.rows| && IsDelivery(db.rows[k], f.ent, f.supplier.value)
    case AggregateEvidence(_) => false
  }

  lemma {:induction false} SignalsAreLinked(links: seq<Link>, finding: Id, e: Evidence)
    ensures e in SignalsOf(links, finding) <==> e.SignalEvidence? && Link(finding, e.id) in links
  {
    if links != [] {
      var n := |links| - 1;
      SignalsAreLinked(links[..n], finding, e);
      assert links == links[..n] + [links[n]];
    }
  }

  lemma OrdersAreDeliveries(rows: seq<Row>, ent: Id, supplier: Id, e: Evidence)
    ensures e in OrderEvidence(OrdersOf(rows, ent, supplier)) <==>
              e.DomainEvidence? && e.id < |rows| && IsDelivery(rows[e.id], ent, supplier)
  {
    var ids := OrdersOf(rows, ent, supplier);
    if e in OrderEvidence(ids) {
      var k :| 0 <= k < |ids| && OrderEvidence(ids)[k] == e;
      assert ids[k] in ids;
    }
    if e.DomainEvidence? && e.id < |rows| && IsDelivery(rows[e.id], ent, supplier) {
      assert e.id in ids;
      var k :| 0 <= k < |ids| && ids[k] == e.id;
      assert OrderEvidence(ids)[k] == e;
    }
  }

  lemma EvidenceMeans(db: Db, id: Id, e: Evidence)
    requires id < |db.findings|
    ensures e in EvidenceOf(db, id) <==> IsEvidence(db, id, e)
  {
    var f := db.findings[id];
    SignalsAreLinked(db.links, id, e);
    if f.supplier.Some? {
      OrdersAreDeliveries(db.rows, f.ent, f.supplier.value, e);
    }
  }

  /** The signals come before the deliveries, and those in the order of the table. */
  lemma EvidenceInOrder(db: Db, id: Id, i: nat, j: nat)
    requires id < |db.findings| && i < j < |EvidenceOf(db, id)|
    ensures var e := EvidenceOf(db, id);
            && (e[j].SignalEvidence? ==> e[i].SignalEvidence?)
            && (e[i].DomainEvidence? ==> e[j].DomainEvidence? && e[i].id < e[j].id)
  {
    var f, signals := db.findings[id], SignalsOf(db.links, id);
    assert forall k :: 0 <= k < |signals| ==> signals[k] in signals;
    forall e | e in signals
      ensures e.SignalEvidence?
    {
      SignalsAreLinked(db.links, id, e);
    }
    if f.supplier.Some? && i >= |signals| {
      OrdersAscend(db.rows, f.ent, f.supplier.value, i - |signals|, j - |signals|);
    }
  }

  lemma {:induction false} OrdersAscend(rows: seq<Row>, ent: Id, supplier: Id, i: nat, j: nat)
    requires i < j < |OrdersOf(rows, ent, supplier)|
    ensures OrdersOf(rows, ent, supplier)[i] < OrdersOf(rows, ent, supplier)[j]
  {
    var n := |rows| - 1;
    var rest := OrdersOf(rows[..n], ent, supplier);
    if j < |rest| {
      OrdersAscend(rows[..n], ent, supplier, i, j);
    } else {
      assert rest[i] in rest;
    }
  }

  /** `kept` is what is left of the citations, in their order, when those that are no evidence of
      the finding are dropped one by one. */
  predicate Sifted(db: Db, id: Id, cited: seq<Evidence>, kept: seq<Evidence>)
    requires id < |db.findings|
  {
    if cited == [] then kept == []
    else if IsEvidence(db, id, cited[0]) then kept != [] && kept[0] == cited[0] && Sifted(db, id, cited[1..], kept[1..])
    else Sifted(db, id, cited[1..], kept)
  }

  lemma {:induction false} SiftedMore(db: Db, id: Id, cited: seq<Evidence>, kept: seq<Evidence>, e: Evidence)
    requires id < |db.findings| && Sifted(db, id, cited, kept)
    ensures Sifted(db, id, cited + [e], if IsEvidence(db, id, e) then kept + [e] else kept)
  {
    if cited == [] {
      assert [e][1..] == [];
    } else {
      assert (cited + [e])[1..] == cited[1..] + [e] && (cited + [e])[0] == cited[0];
      if IsEvidence(db, id, cited[0]) {
        assert (kept + [e])[1..] == kept[1..] + [e];
        SiftedMore(db, id, cited[1..], kept[1..], e);
      } else {
        SiftedMore(db, id, cited[1..], kept, e);
      }
    }
  }

  lemma {:induction false} GroundedIsSifted(db: Db, id: Id, cited: seq<Evidence>)
    requires id < |db.findings|
    ensures Sifted(db, id, cited, Grounded(cited, EvidenceOf(db, id)))
  {
    if cited != [] {
      var n := |cited| - 1;
      GroundedIsSifted(db, id, cited[..n]);
      EvidenceMeans(db, id, cited[n]);
      SiftedMore(db, id, cited[..n], Grounded(cited[..n], EvidenceOf(db, id)), cited[n]);
      assert cited == cited[..n] + [cited[n]];
    }
  }

  /** The reply to call `n` is the first of at most three that is parsed. */
  predicate FirstValid(provider: Provider, n: nat) {
    n < 3 && provider(n).Parsed? && forall m: nat :: m < n ==> !provider(m).Parsed?
  }

  /** The reply cites evidence of the finding. */
  ghost predicate Cites(db: Db, id: Id, reply: Reply)
    requires id < |db.findings|
  {
    reply.Parsed? && exists e :: e in reply.value.dataUsed && IsEvidence(db, id, e)
  }

  /** The explanation says what the reply says, and cites what of its citations is evidence. */
  ghost predicate Tells(x: Explanation, db: Db, ent: Id, id: Id, reply: Reply)
    requires id < |db.findings|
  {
    && reply.Parsed?
    && x.ent == ent && x.finding == id
    && x.what == reply.value.what && x.why == reply.value.why && x.confidence == reply.value.confidence
    && (forall e :: e in x.dataUsed <==> e in reply.value.dataUsed && IsEvidence(db, id, e))
    && Sifted(db, id, reply.value.dataUsed, x.dataUsed)
  }

  /** One explanation more, and the finding is ready. */
  ghost predicate Told(db: Db, after: Db, ent: Id, id: Id, reply: Reply)
    requires id < |db.findings|
  {
    && |after.explanations| == |db.explanations| + 1
    && Tells(after.explanations[|db.explanations|], db, ent, id, reply)
    && after == db.(explanations := db.explanations + [after.explanations[|db.explanations|]],
                    findings := db.findings[id := db.findings[id].(aiStatus := AiReady)])
  }

  /** The reason recorded for an unavailable model: of a parsed reply that cites nothing of the
      finding's evidence, or else of the third call. */
  predicate Reason(error: string, provider: Provider) {
    if provider(0).Parsed? || provider(1).Parsed? || provider(2).Parsed?
    then error == "no valid evidence remained after grounding validation"
    else error == match provider(2) case ProviderFailure => "provider error" case _ => "invalid structured output"
  }

  /** No explanation: the finding is down, the capability's gap is open, and one record says why. */
  ghost predicate Unavailable(db: Db, after: Db, ent: Id, id: Id, provider: Provider)
    requires id < |db.findings|
  {
    && |after.audits| == |db.audits| + 1
    && after.audits[|db.audits|].ent == ent && after.audits[|db.audits|].event.AiUnavailableEvent?
    && after.audits[|db.audits|].event.capability == "proc.risk.diagnose"
    && Reason(after.audits[|db.audits|].event.error, provider)
    && (exists g: Id :: g < |after.gaps| && after.gaps[g].closedAt.None?
                        && after.gaps[g].key ==
                           GapKey(ent, CapabilityScope, CapabilityKey("proc.risk.diagnose"), AiUnavailable))
    && after == db.(audits := db.audits + [after.audits[|db.audits|]], gaps := after.gaps,
                    findings := db.findings[id := db.findings[id].(aiStatus := AiDown)])
  }

  /** An attempt to explain a finding keeps the first valid reply of at most three calls, if that
      cites evidence of the finding, and is unavailable otherwise. */
  ghost predicate Attempted(db: Db, after: Db, ent: Id, id: Id, provider: Provider)
    requires id < |db.findings|
  {
    && (forall n: nat :: FirstValid(provider, n) && Cites(db, id, provider(n)) ==>
          Told(db, after, ent, id, provider(n)))
    && ((forall n: nat :: FirstValid(provider, n) ==> !Cites(db, id, provider(n))) ==>
          Unavailable(db, after, ent, id, provider))
  }

  lemma FirstParsedIsFirstValid(provider: Provider, n: nat)
    ensures FirstValid(provider, n) <==> FirstParsed(provider, DEFAULT_ATTEMPTS) == Some(n)
  {
    var first := FirstParsed(provider, DEFAULT_ATTEMPTS);
    if FirstValid(provider, n) {
      assert provider(n).Parsed? && n < DEFAULT_ATTEMPTS;
    }
  }

  lemma KeptIffCites(db: Db, id: Id, reply: RiskExplanation)
    requires id < |db.findings|
    ensures Grounded(reply.dataUsed, EvidenceOf(db, id)) != [] <==> Cites(db, id, Parsed(reply))
  {
    var kept := Grounded(reply.dataUsed, EvidenceOf(db, id));
    if kept != [] {
      EvidenceMeans(db, id, kept[0]);
      assert kept[0] in kept;
    }
    if e :| e in reply.dataUsed && IsEvidence(db, id, e) {
      EvidenceMeans(db, id, e);
    }
  }

  lemma KeptTells(db: Db, ent: Id, id: Id, reply: RiskExplanation)
    requires id < |db.findings|
    ensures var kept := Grounded(reply.dataUsed, EvidenceOf(db, id));
            Tells(ExplanationFor(ent, id, reply, kept), db, ent, id, Parsed(reply))
  {
    GroundedIsSifted(db, id, reply.dataUsed);
    forall e
      ensures e in EvidenceOf(db, id) <==> IsEvidence(db, id, e)
    {
      EvidenceMeans(db, id, e);
    }
  }

  lemma FailSafeMeans(db: Db, ent: Id, id: Id, provider: Provider, error: string, now: int)
    requires id < |db.findings| && Reason(error, provider)
    ensures Unavailable(db, WithAiStatus(FailSafe(db, ent, CAPABILITY, error, now), id, AiDown), ent, id, provider)
  {
    var after := FailSafe(db, ent, CAPABILITY, error, now);
    var open := Current(db.gaps, AiGap(ent, CAPABILITY));
    var g: Id := if open.Some? then open.value else |db.gaps|;
    assert IsOpen(after.gaps, AiGap(ent, CAPABILITY), g);
  }

  lemma ReasonIs(provider: Provider)
    ensures FirstParsed(provider, 3).None? ==> Reason(LastError(provider, 3), provider)
    ensures FirstParsed(provider, 3).Some? ==> Reason(ErrorText(provider(FirstParsed(provider, 3).value)), provider)
  {
  }

  lemma ExplainedMeans(db: Db, ent: Id, id: Id, provider: Provider, now: int)
    requires Known(db, ent, id)
    ensures Attempted(db, ExplainedDb(db, ent, id, provider, now), ent, id, provider)
  {
    var first, after := FirstParsed(provider, DEFAULT_ATTEMPTS), ExplainedDb(db, ent, id, provider, now);
    forall n: nat
      ensures FirstValid(provider, n) <==> first == Some(n)
    {
      FirstParsedIsFirstValid(provider, n);
    }
    ReasonIs(provider);
    if first.Some? {
      var reply := provider(first.value).value;
      KeptIffCites(db, id, reply);
      KeptTells(db, ent, id, reply);
      if !Cites(db, id, Parsed(reply)) {
        FailSafeMeans(db, ent, id, provider, ErrorText(provider(first.value)), now);
      }
    } else {
      FailSafeMeans(db, ent, id, provider, LastError(provider, DEFAULT_ATTEMPTS), now);
    }
  }

  /** The handler of an explanation job raises exactly when the finding is not the enterprise's;
      otherwise it leaves what an attempt leaves. */
  lemma ExplanationMeans(db: Db, ent: Id, id: Id, env: Env)
    ensures var after := Effect(db, GenerateExplanation(ent, id), env);
            && (after.Some? <==> id < |db.findings| && db.findings[id].ent == ent)
            && (after.Some? ==> Attempted(db, after.value, ent, id, env.provider))
  {
    if Known(db, ent, id) {
      ExplainedMeans(db, ent, id, env.provider, env.now);
    }
  }
}
