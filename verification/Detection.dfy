/** Risk detection (src/app/analysis/rules.py:262-551): assembling the rules' inputs,
    deduplicating findings, linking evidence and asking for explanations. */
module Detection {
  import opened Basics
  import opened Folds
  import opened Tables
  import opened Aggregates
  import opened Rules
  import opened JobQueue

  // ---- inputs ----------------------------------------------------------------------------------

  function LeadTimeDays(rows: seq<Row>, item: Id): Option<real> {
    var q := Query(rows, LeadTime, item);
    match Latest(q, AsOf, None)
    case None => None
    case Some(i) => Some(Amount(q[i], Days))
  }

  function NeedDays(q: seq<Row>): seq<int> {
    if q == [] then []
    else
      var rest, need := NeedDays(q[..|q| - 1]), Cell(q[|q| - 1].cols, NeedBy);
      if need.Day? then rest + [need.d] else rest
  }

  function Needs(rows: seq<Row>, item: Id): seq<int> {
    NeedDays(Query(rows, ProductionDemand, item))
  }

  /** A received order that counts as a delivery sample of its supplier. */
  predicate DelaySample(r: Row, ent: Id) {
    r.entity == PurchaseOrder && r.ent == ent && !r.observability.Lost? && Received(r) && Cell(r.cols, SupplierId).Ref?
  }

  function DelaySamples(rows: seq<Row>, ent: Id): seq<(Id, int)> {
    if rows == [] then []
    else
      var rest, r := DelaySamples(rows[..|rows| - 1], ent), rows[|rows| - 1];
      if DelaySample(r, ent) then rest + [(Cell(r.cols, SupplierId).id, LateDays(r))] else rest
  }

  predicate QualitySample(r: Row, ent: Id) {
    && r.entity == QualityRecord && r.ent == ent && !r.observability.Lost?
    && Cell(r.cols, ItemId).Ref? && Cell(r.cols, SupplierId).Ref? && Cell(r.cols, DefectRate).Num?
  }

  function QualitySamples(rows: seq<Row>, ent: Id): seq<((Id, Id), real)> {
    if rows == [] then []
    else
      var rest, r := QualitySamples(rows[..|rows| - 1], ent), rows[|rows| - 1];
      if QualitySample(r, ent)
      then rest + [((Cell(r.cols, ItemId).id, Cell(r.cols, SupplierId).id), Cell(r.cols, DefectRate).r)]
      else rest
  }

  // ---- grouping ----------------------------------------------------------------------------------

  /** Keys in order of first appearance. */
  function KeysOf<K(==, !new), V>(samples: seq<(K, V)>): (keys: seq<K>)
    ensures forall k :: k in keys <==> exists i :: 0 <= i < |samples| && samples[i].0 == k
  {
    if samples == [] then []
    else
      var n := |samples| - 1;
      var keys := KeysOf(samples[..n]);
      assert forall i :: 0 <= i < n ==> samples[i] == samples[..n][i];
      if samples[n].0 in keys then keys else keys + [samples[n].0]
  }

  function ValuesOf<K(==, !new), V>(samples: seq<(K, V)>, k: K): seq<V> {
    if samples == [] then []
    else
      var n := |samples| - 1;
      if samples[n].0 == k then ValuesOf(samples[..n], k) + [samples[n].1] else ValuesOf(samples[..n], k)
  }

  /** Filling a dictionary of lists; `keys` is its insertion order. */
  method GroupByKey<K(==, !new), V>(samples: seq<(K, V)>) returns (keys: seq<K>, groups: map<K, seq<V>>)
    ensures keys == KeysOf(samples)
    ensures forall k :: k in groups <==> k in keys
    ensures forall k :: k in groups ==> groups[k] == ValuesOf(samples, k)
  {
    keys, groups := [], map[];
    for i := 0 to |samples|
      invariant keys == KeysOf(samples[..i])
      invariant forall k :: k in groups <==> k in keys
      invariant forall k :: k in groups ==> groups[k] == ValuesOf(samples[..i], k)
      invariant forall k :: k !in groups ==> ValuesOf(samples[..i], k) == []
    {
      assert samples[..i + 1][..i] == samples[..i];
      var k := samples[i].0;
      if k !in groups {
        keys, groups := keys + [k], groups[k := []];
      }
      groups := groups[k := groups[k] + [samples[i].1]];
    }
    assert samples[..|samples|] == samples;
  }

  // ---- candidates --------------------------------------------------------------------------------

  function Optional(c: Option<Candidate>): seq<Candidate> {
    if c.Some? then [c.value] else []
  }

  function ShortageCandidate(rows: seq<Row>, a: Aggregate): Option<Candidate> {
    match LeadTimeDays(rows, a.item)
    case None => None
    case Some(days) => LikelyShortageRule(a.item, a.figures, days)
  }

  function AggregateCandidates(rows: seq<Row>, a: Aggregate, now: int): seq<Candidate> {
    Optional(ShortageCandidate(rows, a))
    + Optional(NextDeliveryRule(a.item, a.figures, now))
    + Optional(ProductionStopRule(a.item, a.figures, Needs(rows, a.item), now))
    + Optional(PriceAnomalyRule(a.item, a.figures))
  }

  function AggregateRules(rows: seq<Row>, ent: Id, now: int): Aggregate -> seq<Candidate> {
    (a: Aggregate) => if a.ent == ent then AggregateCandidates(rows, a, now) else []
  }

  function DelayRules(samples: seq<(Id, int)>): Id -> seq<Candidate> {
    (supplier: Id) => Optional(SupplierDelayRule(supplier, ValuesOf(samples, supplier)))
  }

  function QualityRules(samples: seq<((Id, Id), real)>): ((Id, Id)) -> seq<Candidate> {
    (pair: (Id, Id)) => Optional(QualityRule(pair.0, pair.1, ValuesOf(samples, pair)))
  }

  /** Every risk the rules see, in the order they are applied. */
  function Candidates(rows: seq<Row>, aggs: seq<Aggregate>, ent: Id, now: int): seq<Candidate> {
    var delays, quality := DelaySamples(rows, ent), QualitySamples(rows, ent);
    FlatMap(AggregateRules(rows, ent, now), aggs)
    + FlatMap(DelayRules(delays), KeysOf(delays))
    + FlatMap(QualityRules(quality), KeysOf(quality))
  }

  // ---- applying one candidate ----------------------------------------------------------------------

  /** The same ongoing condition: enterprise, risk type, item and supplier. */
  predicate SameRisk(f: Finding, ent: Id, c: Candidate) {
    f.ent == ent && f.kind == c.kind && f.item == c.item && f.supplier == c.supplier
  }

  predicate Ongoing(findings: seq<Finding>, ent: Id, c: Candidate, i: Id) {
    i < |findings| && !Terminal(findings[i]) && SameRisk(findings[i], ent, c)
  }

  function FindOngoing(findings: seq<Finding>, ent: Id, c: Candidate): (r: Option<Id>)
    ensures r.Some? ==> Ongoing(findings, ent, c, r.value)
    ensures r.None? ==> forall i: Id :: i < |findings| ==> !Ongoing(findings, ent, c, i)
  {
    if findings == [] then None
    else
      var n := |findings| - 1;
      var earlier := FindOngoing(findings[..n], ent, c);
      if earlier.Some? then earlier
      else if Ongoing(findings, ent, c, n) then Some(n)
      else
        assert forall i: Id :: i < n ==> Ongoing(findings, ent, c, i) == Ongoing(findings[..n], ent, c, i);
        None
  }

  function NewFinding(ent: Id, c: Candidate, now: int): Finding {
    Finding(ent, c.kind, c.item, c.supplier, c.severity, Open, AiPending, now, None, None)
  }

  /** Signal types that are evidence for a risk type; supplier delays have none. */
  function EvidenceKinds(kind: RiskType): set<SignalType> {
    match kind
    case LikelyShortage => {StockChange}
    case InsufficientUntilNextDelivery => {StockChange}
    case ProductionStopRisk => {StockChange, DemandChange}
    case PriceAnomaly => {PriceChange}
    case QualityDegradation => {QualityIssue}
    case SystematicSupplierDelay => {}
  }

  predicate Supports(s: Signal, ent: Id, c: Candidate) {
    && s.ent == ent
    && s.kind in EvidenceKinds(c.kind)
    && (c.item.Some? ==> s.item == c.item)
    && (c.supplier.Some? ==> s.supplier == c.supplier)
  }

  /** Links for the supporting signals that have none yet. */
  function NewLinks(links: seq<Link>, signals: seq<Signal>, ent: Id, c: Candidate, finding: Id): seq<Link> {
    if signals == [] then []
    else
      var n := |signals| - 1;
      var rest := NewLinks(links, signals[..n], ent, c, finding);
      if Supports(signals[n], ent, c) && Link(finding, n) !in links then rest + [Link(finding, n)] else rest
  }

  predicate Explains(j: Job, finding: Id) {
    j.task.GenerateExplanation? && j.task.finding == finding
  }

  predicate Active(j: Job) {
    j.status.Pending? || j.status.Running?
  }

  predicate Queued(jobs: seq<Job>, finding: Id) {
    exists i :: 0 <= i < |jobs| && Explains(jobs[i], finding) && Active(jobs[i])
  }

  /** The tables detection writes. */
  datatype Book = Book(findings: seq<Finding>, links: seq<Link>, jobs: seq<Job>)

  function Listed(findings: seq<Finding>, ent: Id, c: Candidate, now: int): seq<Finding> {
    if FindOngoing(findings, ent, c).Some? then findings else findings + [NewFinding(ent, c, now)]
  }

  function ListedAs(findings: seq<Finding>, ent: Id, c: Candidate): Id {
    match FindOngoing(findings, ent, c) case Some(i) => i case None => |findings|
  }

  function Requested(f: Finding, id: Id, jobs: seq<Job>, now: int, watermark: nat): seq<Job> {
    if f.aiStatus.AiReady? || Queued(jobs, id) then jobs
    else jobs + [NewJob(GenerateExplanation(f.ent, id), now, watermark)]
  }

  function Applied(b: Book, signals: seq<Signal>, ent: Id, now: int, c: Candidate): Book {
    var findings, id := Listed(b.findings, ent, c, now), ListedAs(b.findings, ent, c);
    Book(findings,
         b.links + NewLinks(b.links, signals, ent, c, id),
         Requested(findings[id], id, b.jobs, now, |signals|))
  }

  /** Applying candidates in order; `found` are the findings returned. */
  datatype Detected = Detected(book: Book, found: seq<Id>)

  function AppliedOne(d: Detected, signals: seq<Signal>, ent: Id, now: int, c: Candidate): Detected {
    Detected(Applied(d.book, signals, ent, now, c), d.found + [ListedAs(d.book.findings, ent, c)])
  }

  function Applier(signals: seq<Signal>, ent: Id, now: int): (Detected, Candidate) -> Detected {
    (d, c) => AppliedOne(d, signals, ent, now, c)
  }

  function AppliedAll(b: Book, signals: seq<Signal>, ent: Id, now: int, cs: seq<Candidate>): Detected {
    FoldAll(Applier(signals, ent, now), Detected(b, []), cs)
  }

  lemma {:induction false} AppliedAllAppendsJobs(b: Book, signals: seq<Signal>, ent: Id, now: int, cs: seq<Candidate>)
    ensures b.jobs <= AppliedAll(b, signals, ent, now, cs).book.jobs
  {
    if cs != [] {
      AppliedAllAppendsJobs(b, signals, ent, now, cs[..|cs| - 1]);
    }
  }

  function BookOf(db: Db): Book {
    Book(db.findings, db.links, db.jobs)
  }

  function WithBook(db: Db, b: Book): Db {
    db.(findings := b.findings, links := b.links, jobs := b.jobs)
  }

  function DetectedIn(db: Db, ent: Id, now: int): Detected {
    AppliedAll(BookOf(db), db.signals, ent, now, Candidates(db.rows, db.aggregates, ent, now))
  }

  function DetectedDb(db: Db, ent: Id, now: int): Db {
    WithBook(db, DetectedIn(db, ent, now).book)
  }

  // ---- the transaction -------------------------------------------------------------------------

  method LinkNewEvidence(s: Session, ent: Id, c: Candidate, finding: Id)
    modifies s`db
    ensures s.db == old(s.db).(links := old(s.db.links) + NewLinks(old(s.db.links), old(s.db.signals), ent, c, finding))
  {
    var before, signals := s.db.links, s.db.signals;
    for n := 0 to |signals|
      invariant s.db == old(s.db).(links := before + NewLinks(before, signals[..n], ent, c, finding))
    {
      assert signals[..n + 1][..n] == signals[..n];
      if Supports(signals[n], ent, c) && Link(finding, n) !in before {
        s.db := s.db.(links := s.db.links + [Link(finding, n)]);
      }
    }
    assert signals[..|signals|] == signals;
  }

  method MaybeEnqueueExplanation(s: Session, id: Id, now: int)
    requires id < |s.db.findings|
    modifies s`db
    ensures s.db == old(s.db).(jobs := Requested(old(s.db.findings)[id], id, old(s.db.jobs), now, |old(s.db.signals)|))
  {
    var f := s.db.findings[id];
    if f.aiStatus.AiReady? {
      return;
    }
    if Queued(s.db.jobs, id) {
      return;
    }
    Enqueue(s, GenerateExplanation(f.ent, id), now);
  }

  lemma {:induction false} NothingToLink(links: seq<Link>, signals: seq<Signal>, ent: Id, c: Candidate, finding: Id)
    requires forall k: Id :: k < |signals| && Supports(signals[k], ent, c) ==> Link(finding, k) in links
    ensures NewLinks(links, signals, ent, c, finding) == []
  {
    if signals != [] {
      NothingToLink(links, signals[..|signals| - 1], ent, c, finding);
    }
  }

  method Apply(s: Session, ent: Id, now: int, c: Candidate) returns (id: Id)
    modifies s`db
    ensures s.db == WithBook(old(s.db), Applied(BookOf(old(s.db)), old(s.db.signals), ent, now, c))
    ensures id == ListedAs(old(s.db.findings), ent, c)
  {
    var ongoing := FindOngoing(s.db.findings, ent, c);
    if ongoing.None? {
      id := |s.db.findings|;
      s.db := s.db.(findings := s.db.findings + [NewFinding(ent, c, now)]);
    } else {
      id := ongoing.value;
    }
    if EvidenceKinds(c.kind) != {} {
      LinkNewEvidence(s, ent, c, id);
    } else {
      NothingToLink(s.db.links, s.db.signals, ent, c, id);
    }
    MaybeEnqueueExplanation(s, id, now);
  }

  /** Applying candidates in order. */
  method ApplyEach(s: Session, ent: Id, now: int, cs: seq<Candidate>, found: seq<Id>) returns (all: seq<Id>)
    modifies s`db
    ensures s.db == WithBook(old(s.db), BookOf(s.db))
    ensures Detected(BookOf(s.db), all) == FoldAll(Applier(old(s.db.signals), ent, now),
                Detected(BookOf(old(s.db)), found), cs)
  {
    ghost var step, d := Applier(s.db.signals, ent, now), Detected(BookOf(s.db), found);
    all := found;
    for m := 0 to |cs|
      invariant s.db == WithBook(old(s.db), BookOf(s.db))
      invariant Detected(BookOf(s.db), all) == FoldAll(step, d, cs[..m])
    {
      assert cs[..m + 1] == cs[..m] + [cs[m]];
      FoldAllOne(step, d, cs[..m], cs[m]);
      var id := Apply(s, ent, now, cs[m]);
      all := all + [id];
    }
    assert cs[..|cs|] == cs;
  }

  /** Applying the candidates that a rule set finds for each item of a list. */
  method ApplyFor<T>(s: Session, ent: Id, now: int, items: seq<T>, rules: T -> seq<Candidate>, found: seq<Id>)
    returns (all: seq<Id>)
    modifies s`db
    ensures s.db == WithBook(old(s.db), BookOf(s.db))
    ensures Detected(BookOf(s.db), all) ==
            FoldAll(Applier(old(s.db.signals), ent, now), Detected(BookOf(old(s.db)), found), FlatMap(rules, items))
  {
    ghost var step, d := Applier(s.db.signals, ent, now), Detected(BookOf(s.db), found);
    all := found;
    for n := 0 to |items|
      invariant s.db == WithBook(old(s.db), BookOf(s.db))
      invariant Detected(BookOf(s.db), all) == FoldAll(step, d, FlatMap(rules, items[..n]))
    {
      assert items[..n + 1] == items[..n] + [items[n]];
      FlatMapOne(rules, items[..n], items[n]);
      FoldAllAppend(step, d, FlatMap(rules, items[..n]), rules(items[n]));
      all := ApplyEach(s, ent, now, rules(items[n]), all);
    }
    assert items[..|items|] == items;
  }

  /** All six rules over the current aggregates, deliveries and quality records. */
  method DetectRisksIn(s: Session, ent: Id, now: int) returns (found: seq<Id>)
    modifies s`db
    ensures s.db == DetectedDb(old(s.db), ent, now)
    ensures found == DetectedIn(old(s.db), ent, now).found
  {
    var rows, aggs := s.db.rows, s.db.aggregates;
    ghost var step, d := Applier(s.db.signals, ent, now), Detected(BookOf(s.db), []);
    found := ApplyFor(s, ent, now, aggs, AggregateRules(rows, ent, now), []);

    var delays := DelaySamples(rows, ent);
    var suppliers, late := GroupByKey(delays);
    var delayRules := (k: Id) => if k in late then Optional(SupplierDelayRule(k, late[k])) else [];
    found := ApplyFor(s, ent, now, suppliers, delayRules, found);

    var quality := QualitySamples(rows, ent);
    var pairs, rates := GroupByKey(quality);
    var qualityRules := (k: (Id, Id)) => if k in rates then Optional(QualityRule(k.0, k.1, rates[k])) else [];
    found := ApplyFor(s, ent, now, pairs, qualityRules, found);

    FlatMapSame(delayRules, DelayRules(delays), suppliers);
    FlatMapSame(qualityRules, QualityRules(quality), pairs);
    ghost var first, second := FlatMap(AggregateRules(rows, ent, now), aggs), FlatMap(DelayRules(delays), suppliers);
    FoldAllAppend(step, d, first, second);
    FoldAllAppend(step, d, first + second, FlatMap(QualityRules(quality), pairs));
  }
}
