/** What risk detection guarantees over any run (src/app/analysis/rules.py:262-551). */
module DetectionProps {
  import opened Basics
  import opened Folds
  import opened Tables
  import opened Rules
  import opened Detection
  import opened JobQueue

  // ---- deduplication -------------------------------------------------------------------------------

  predicate SameCondition(f: Finding, g: Finding) {
    f.ent == g.ent && f.kind == g.kind && f.item == g.item && f.supplier == g.supplier
  }

  predicate Unfinished(f: Finding) {
    f.status.Open? || f.status.Recommended? || f.status.Actioned?
  }

  /** Never two ongoing findings of one condition, so the lookup answers at most one row. */
  ghost predicate OneOngoing(findings: seq<Finding>) {
    forall i, j :: 0 <= i < j < |findings| && Unfinished(findings[i]) && Unfinished(findings[j]) ==>
      !SameCondition(findings[i], findings[j])
  }

  lemma OngoingIsThe(findings: seq<Finding>, ent: Id, c: Candidate, i: Id)
    requires OneOngoing(findings) && Ongoing(findings, ent, c, i)
    ensures FindOngoing(findings, ent, c) == Some(i)
  {
    var found := FindOngoing(findings, ent, c);
    assert found.Some?;
    if found.value != i {
      assert SameCondition(findings[found.value], findings[i]);
    }
  }

  /** Listing a candidate changes no existing finding, whatever its status, and adds one
      exactly when the condition has no ongoing finding. */
  lemma ListedEffect(findings: seq<Finding>, ent: Id, c: Candidate, now: int)
    requires OneOngoing(findings)
    ensures var after := Listed(findings, ent, c, now);
            && findings <= after
            && OneOngoing(after)
            && Ongoing(after, ent, c, ListedAs(findings, ent, c))
            && (|after| == |findings| + 1 <==> forall i: Id :: i < |findings| ==> !Ongoing(findings, ent, c, i))
            && |after| <= |findings| + 1
  {
    if FindOngoing(findings, ent, c).None? {
      forall i: Id | i < |findings| && !Terminal(findings[i])
        ensures !SameCondition(findings[i], NewFinding(ent, c, now))
      {
        assert !Ongoing(findings, ent, c, i);
      }
    }
  }

  // ---- evidence ------------------------------------------------------------------------------------

  lemma {:induction false} NewLinksExactly(links: seq<Link>, signals: seq<Signal>, ent: Id, c: Candidate, finding: Id)
    ensures forall l: Link :: l in NewLinks(links, signals, ent, c, finding) <==>
              l.finding == finding && l.signal < |signals| && Supports(signals[l.signal], ent, c) && l !in links
    ensures forall i, j :: 0 <= i < j < |NewLinks(links, signals, ent, c, finding)| ==>
              NewLinks(links, signals, ent, c, finding)[i] != NewLinks(links, signals, ent, c, finding)[j]
  {
    if signals != [] {
      var n := |signals| - 1;
      NewLinksExactly(links, signals[..n], ent, c, finding);
      var rest := NewLinks(links, signals[..n], ent, c, finding);
      assert Link(finding, n) !in rest;
      assert forall k :: 0 <= k < |rest| ==> rest[k] in rest;
    }
  }

  ghost predicate NoDuplicates(links: seq<Link>) {
    forall i, j :: 0 <= i < j < |links| ==> links[i] != links[j]
  }

  /** Afterwards the finding is linked exactly once to its previous evidence and to every
      supporting signal; no other finding's links change. */
  lemma EvidenceExact(b: Book, signals: seq<Signal>, ent: Id, now: int, c: Candidate)
    requires NoDuplicates(b.links)
    ensures var links, id := Applied(b, signals, ent, now, c).links, ListedAs(b.findings, ent, c);
            && NoDuplicates(links)
            && b.links <= links
            && (forall k: Id :: Link(id, k) in links <==>
                  Link(id, k) in b.links || (k < |signals| && Supports(signals[k], ent, c)))
            && (forall l: Link :: l.finding != id ==> (l in links <==> l in b.links))
  {
    var id := ListedAs(b.findings, ent, c);
    NewLinksExactly(b.links, signals, ent, c, id);
    var added := NewLinks(b.links, signals, ent, c, id);
    assert forall k :: 0 <= k < |added| ==> added[k] in added;
    assert forall l: Link :: l in b.links + added <==> l in b.links || l in added;
  }

  /** Every link joins a finding to a signal of its evidence types, enterprise, item and
      supplier; a supplier-delay finding therefore has none. */
  ghost predicate LinksSound(findings: seq<Finding>, links: seq<Link>, signals: seq<Signal>) {
    forall l: Link :: l in links ==>
      && l.finding < |findings| && l.signal < |signals|
      && Supports(signals[l.signal], findings[l.finding].ent, ConditionOf(findings[l.finding]))
  }

  function ConditionOf(f: Finding): Candidate {
    Candidate(f.kind, f.item, f.supplier, f.severity)
  }

  /** What holds of the analysis tables between any two transactions. */
  ghost predicate BookInv(b: Book, signals: seq<Signal>) {
    OneOngoing(b.findings) && NoDuplicates(b.links) && LinksSound(b.findings, b.links, signals)
  }

  lemma AppliedKeepsBook(b: Book, signals: seq<Signal>, ent: Id, now: int, c: Candidate)
    requires BookInv(b, signals)
    ensures BookInv(Applied(b, signals, ent, now, c), signals)
    ensures b.findings <= Applied(b, signals, ent, now, c).findings
    ensures b.links <= Applied(b, signals, ent, now, c).links
  {
    ListedEffect(b.findings, ent, c, now);
    EvidenceExact(b, signals, ent, now, c);
    var after, id := Applied(b, signals, ent, now, c), ListedAs(b.findings, ent, c);
    forall l: Link | l in after.links
      ensures l.finding < |after.findings| && l.signal < |signals|
      ensures Supports(signals[l.signal], after.findings[l.finding].ent, ConditionOf(after.findings[l.finding]))
    {
      if l in b.links {
        assert after.findings[l.finding] == b.findings[l.finding];
      } else {
        NewLinksExactly(b.links, signals, ent, c, id);
      }
    }
  }

  // ---- requesting explanations -----------------------------------------------------------------------

  /** A request leaves the finding ready or queued, and appends at most one job: its own. */
  lemma RequestedEffect(f: Finding, id: Id, jobs: seq<Job>, now: int, watermark: nat)
    ensures var after := Requested(f, id, jobs, now, watermark);
            && jobs <= after
            && (f.aiStatus.AiReady? || Queued(after, id))
            && (after == jobs || (after == jobs + [NewJob(GenerateExplanation(f.ent, id), now, watermark)]
                                  && !f.aiStatus.AiReady? && !Queued(jobs, id)))
  {
    var after := Requested(f, id, jobs, now, watermark);
    if after != jobs {
      assert Explains(after[|jobs|], id) && Active(after[|jobs|]);
    }
  }

  lemma QueuedStays(jobs: seq<Job>, later: seq<Job>, id: Id)
    requires jobs <= later && Queued(jobs, id)
    ensures Queued(later, id)
  {
    var i :| 0 <= i < |jobs| && Explains(jobs[i], id) && Active(jobs[i]);
    assert later[i] == jobs[i];
  }

  // ---- idempotence -----------------------------------------------------------------------------------

  /** The candidate's condition is listed as `id`, fully linked, and explained or queued. */
  ghost predicate Handled(b: Book, signals: seq<Signal>, ent: Id, c: Candidate, id: Id) {
    && Ongoing(b.findings, ent, c, id)
    && (forall k: Id :: k < |signals| && Supports(signals[k], ent, c) ==> Link(id, k) in b.links)
    && (b.findings[id].aiStatus.AiReady? || Queued(b.jobs, id))
  }

  lemma AppliedHandles(b: Book, signals: seq<Signal>, ent: Id, now: int, c: Candidate)
    requires BookInv(b, signals)
    ensures Handled(Applied(b, signals, ent, now, c), signals, ent, c, ListedAs(b.findings, ent, c))
  {
    var id := ListedAs(b.findings, ent, c);
    ListedEffect(b.findings, ent, c, now);
    EvidenceExact(b, signals, ent, now, c);
    RequestedEffect(Listed(b.findings, ent, c, now)[id], id, b.jobs, now, |signals|);
  }

  lemma HandledIsFixed(b: Book, signals: seq<Signal>, ent: Id, now: int, c: Candidate, id: Id)
    requires BookInv(b, signals) && Handled(b, signals, ent, c, id)
    ensures Applied(b, signals, ent, now, c) == b && ListedAs(b.findings, ent, c) == id
  {
    OngoingIsThe(b.findings, ent, c, id);
    NothingToLink(b.links, signals, ent, c, id);
    assert b.links + [] == b.links;
  }

  lemma AppliedKeepsHandled(b: Book, signals: seq<Signal>, ent: Id, now: int, c: Candidate, ent': Id,
                            other: Candidate, id: Id)
    requires BookInv(b, signals) && Handled(b, signals, ent', other, id)
    ensures Handled(Applied(b, signals, ent, now, c), signals, ent', other, id)
  {
    AppliedKeepsBook(b, signals, ent, now, c);
    var target := ListedAs(b.findings, ent, c);
    ListedEffect(b.findings, ent, c, now);
    RequestedEffect(Listed(b.findings, ent, c, now)[target], target, b.jobs, now, |signals|);
    if Queued(b.jobs, id) {
      QueuedStays(b.jobs, Applied(b, signals, ent, now, c).jobs, id);
    }
  }

  ghost predicate HandledAs(b: Book, signals: seq<Signal>, ent: Id, cs: seq<Candidate>, ids: seq<Id>) {
    |ids| == |cs| && forall i :: 0 <= i < |cs| ==> Handled(b, signals, ent, cs[i], ids[i])
  }

  lemma AppliedHandlesMore(b: Book, signals: seq<Signal>, ent: Id, now: int, cs: seq<Candidate>, ids: seq<Id>,
                           c: Candidate)
    requires BookInv(b, signals) && HandledAs(b, signals, ent, cs, ids)
    ensures HandledAs(Applied(b, signals, ent, now, c), signals, ent, cs + [c], ids + [ListedAs(b.findings, ent, c)])
  {
    var after, all := Applied(b, signals, ent, now, c), ids + [ListedAs(b.findings, ent, c)];
    AppliedHandles(b, signals, ent, now, c);
    forall i | 0 <= i < |cs|
      ensures Handled(after, signals, ent, (cs + [c])[i], all[i])
    {
      AppliedKeepsHandled(b, signals, ent, now, c, ent, cs[i], ids[i]);
    }
  }

  lemma {:induction false} AllHandled(b: Book, signals: seq<Signal>, ent: Id, now: int, cs: seq<Candidate>)
    requires BookInv(b, signals)
    ensures var d := AppliedAll(b, signals, ent, now, cs);
            && BookInv(d.book, signals)
            && b.findings <= d.book.findings && b.links <= d.book.links
            && HandledAs(d.book, signals, ent, cs, d.found)
  {
    if cs != [] {
      var n := |cs| - 1;
      AllHandled(b, signals, ent, now, cs[..n]);
      var d := AppliedAll(b, signals, ent, now, cs[..n]);
      AppliedKeepsBook(d.book, signals, ent, now, cs[n]);
      AppliedHandlesMore(d.book, signals, ent, now, cs[..n], d.found, cs[n]);
      assert cs == cs[..n] + [cs[n]];
    }
  }

  lemma {:induction false} HandledAgain(b: Book, signals: seq<Signal>, ent: Id, now: int, cs: seq<Candidate>,
                                        ids: seq<Id>)
    requires BookInv(b, signals) && HandledAs(b, signals, ent, cs, ids)
    ensures AppliedAll(b, signals, ent, now, cs) == Detected(b, ids)
  {
    if cs == [] {
      assert ids == [];
    } else {
      var n := |cs| - 1;
      HandledAgain(b, signals, ent, now, cs[..n], ids[..n]);
      HandledIsFixed(b, signals, ent, now, cs[n], ids[n]);
      assert ids == ids[..n] + [ids[n]];
    }
  }

  /** Detecting again at the same instant on unchanged inputs returns the same findings and
      adds no finding, no link and no job. */
  lemma DetectionIsIdempotent(db: Db, ent: Id, now: int)
    requires BookInv(BookOf(db), db.signals)
    ensures var once := DetectedDb(db, ent, now);
            && DetectedDb(once, ent, now) == once
            && DetectedIn(once, ent, now).found == DetectedIn(db, ent, now).found
  {
    var cs := Candidates(db.rows, db.aggregates, ent, now);
    AllHandled(BookOf(db), db.signals, ent, now, cs);
    var d := DetectedIn(db, ent, now);
    HandledAgain(d.book, db.signals, ent, now, cs, d.found);
  }

  // ---- nothing missed, nothing made up -----------------------------------------------------------------

  /** Of two keys, the one seen first comes first. */
  lemma {:induction false} KeysFirstSeen<K(!new), V>(samples: seq<(K, V)>, i: nat, j: nat)
    requires i < j < |KeysOf(samples)|
    ensures exists a :: 0 <= a < |samples| && samples[a].0 == KeysOf(samples)[i]
                        && forall b :: 0 <= b <= a ==> samples[b].0 != KeysOf(samples)[j]
  {
    var n := |samples| - 1;
    var keys := KeysOf(samples[..n]);
    if j < |keys| {
      KeysFirstSeen(samples[..n], i, j);
      var a :| 0 <= a < n && samples[..n][a].0 == keys[i]
        && forall b :: 0 <= b <= a ==> samples[..n][b].0 != keys[j];
      assert forall b :: 0 <= b <= a ==> samples[b] == samples[..n][b];
    } else {
      assert keys[i] in keys;
      var a :| 0 <= a < n && samples[..n][a].0 == keys[i];
      forall b | 0 <= b <= a
        ensures samples[b].0 != samples[n].0
      {
        assert samples[..n][b] == samples[b];
      }
    }
  }

  lemma {:induction false} NoValues<K(!new), V>(samples: seq<(K, V)>, k: K)
    requires k !in KeysOf(samples)
    ensures ValuesOf(samples, k) == []
  {
    if samples != [] {
      NoValues(samples[..|samples| - 1], k);
    }
  }

  predicate AggregateSeen(rows: seq<Row>, ent: Id, now: int, a: Aggregate, c: Candidate) {
    a.ent == ent && c in AggregateCandidates(rows, a, now)
  }

  predicate DelaySeen(samples: seq<(Id, int)>, s: Id, c: Candidate) {
    SupplierDelayRule(s, ValuesOf(samples, s)) == Some(c)
  }

  predicate QualitySeen(samples: seq<((Id, Id), real)>, pair: (Id, Id), c: Candidate) {
    QualityRule(pair.0, pair.1, ValuesOf(samples, pair)) == Some(c)
  }

  lemma DelaySeenByKey(samples: seq<(Id, int)>, s: Id, c: Candidate)
    ensures c in DelayRules(samples)(s) <==> DelaySeen(samples, s, c)
    ensures DelaySeen(samples, s, c) ==> s in KeysOf(samples)
  {
    if s !in KeysOf(samples) {
      NoValues(samples, s);
    }
  }

  lemma QualitySeenByKey(samples: seq<((Id, Id), real)>, pair: (Id, Id), c: Candidate)
    ensures c in QualityRules(samples)(pair) <==> QualitySeen(samples, pair, c)
    ensures QualitySeen(samples, pair, c) ==> pair in KeysOf(samples)
  {
    if pair !in KeysOf(samples) {
      NoValues(samples, pair);
    }
  }

  lemma DelayMember(samples: seq<(Id, int)>, c: Candidate)
    ensures c in FlatMap(DelayRules(samples), KeysOf(samples)) <==> exists s: Id :: DelaySeen(samples, s, c)
  {
    FlatMapMember(DelayRules(samples), KeysOf(samples), c);
    forall s: Id
      ensures c in DelayRules(samples)(s) <==> DelaySeen(samples, s, c)
      ensures DelaySeen(samples, s, c) ==> s in KeysOf(samples)
    {
      DelaySeenByKey(samples, s, c);
    }
  }

  lemma QualityMember(samples: seq<((Id, Id), real)>, c: Candidate)
    ensures c in FlatMap(QualityRules(samples), KeysOf(samples)) <==>
                exists pair: (Id, Id) :: QualitySeen(samples, pair, c)
  {
    FlatMapMember(QualityRules(samples), KeysOf(samples), c);
    forall pair: (Id, Id)
      ensures c in QualityRules(samples)(pair) <==> QualitySeen(samples, pair, c)
      ensures QualitySeen(samples, pair, c) ==> pair in KeysOf(samples)
    {
      QualitySeenByKey(samples, pair, c);
    }
  }

  lemma AggregateMember(rows: seq<Row>, aggs: seq<Aggregate>, ent: Id, now: int, c: Candidate)
    ensures c in FlatMap(AggregateRules(rows, ent, now), aggs) <==>
              exists a :: a in aggs && AggregateSeen(rows, ent, now, a, c)
  {
    FlatMapMember(AggregateRules(rows, ent, now), aggs, c);
    forall a
      ensures c in AggregateRules(rows, ent, now)(a) <==> AggregateSeen(rows, ent, now, a, c)
    {
    }
  }

  /** Some rule sees the risk: of an aggregate of the enterprise, of any supplier over all its
      deliveries, or of any item and supplier over all their quality records. */
  ghost predicate Seen(rows: seq<Row>, aggs: seq<Aggregate>, ent: Id, now: int, c: Candidate) {
    || (exists a :: a in aggs && AggregateSeen(rows, ent, now, a, c))
    || (exists s: Id :: DelaySeen(DelaySamples(rows, ent), s, c))
    || (exists pair: (Id, Id) :: QualitySeen(QualitySamples(rows, ent), pair, c))
  }

  lemma CandidatesAreSeen(rows: seq<Row>, aggs: seq<Aggregate>, ent: Id, now: int, c: Candidate)
    ensures c in Candidates(rows, aggs, ent, now) <==> Seen(rows, aggs, ent, now, c)
  {
    AggregateMember(rows, aggs, ent, now, c);
    DelayMember(DelaySamples(rows, ent), c);
    QualityMember(QualitySamples(rows, ent), c);
  }

  lemma {:induction false} NewFindingsAreCandidates(b: Book, signals: seq<Signal>, ent: Id, now: int,
          cs: seq<Candidate>, i: Id)
    requires BookInv(b, signals)
    requires |b.findings| <= i < |AppliedAll(b, signals, ent, now, cs).book.findings|
    ensures exists c :: c in cs && AppliedAll(b, signals, ent, now, cs).book.findings[i] == NewFinding(ent, c, now)
  {
    var n := |cs| - 1;
    var d := AppliedAll(b, signals, ent, now, cs[..n]);
    AllHandled(b, signals, ent, now, cs[..n]);
    ListedEffect(d.book.findings, ent, cs[n], now);
    if i < |d.book.findings| {
      NewFindingsAreCandidates(b, signals, ent, now, cs[..n], i);
    } else {
      assert cs[n] in cs;
    }
  }

  ghost predicate ListedFor(findings: seq<Finding>, ent: Id, c: Candidate) {
    exists i: Id :: Ongoing(findings, ent, c, i)
  }

  ghost predicate MadeFrom(rows: seq<Row>, aggs: seq<Aggregate>, ent: Id, now: int, f: Finding) {
    exists c :: Seen(rows, aggs, ent, now, c) && f == NewFinding(ent, c, now)
  }

  /** After detection every risk that some rule sees has an ongoing finding, and every finding
      it added is a risk that some rule sees. */
  lemma DetectionExact(db: Db, ent: Id, now: int)
    requires BookInv(BookOf(db), db.signals)
    ensures var after := DetectedDb(db, ent, now).findings;
            && db.findings <= after
            && (forall c :: Seen(db.rows, db.aggregates, ent, now, c) ==> ListedFor(after, ent, c))
            && (forall i: Id :: |db.findings| <= i < |after| ==> MadeFrom(db.rows, db.aggregates, ent, now, after[i]))
  {
    var cs := Candidates(db.rows, db.aggregates, ent, now);
    AllHandled(BookOf(db), db.signals, ent, now, cs);
    forall c | Seen(db.rows, db.aggregates, ent, now, c)
      ensures ListedFor(DetectedDb(db, ent, now).findings, ent, c)
    {
      SeenIsListed(db, ent, now, c);
    }
    forall i: Id | |db.findings| <= i < |DetectedDb(db, ent, now).findings|
      ensures MadeFrom(db.rows, db.aggregates, ent, now, DetectedDb(db, ent, now).findings[i])
    {
      NewFindingsAreCandidates(BookOf(db), db.signals, ent, now, cs, i);
      var c :| c in cs && DetectedDb(db, ent, now).findings[i] == NewFinding(ent, c, now);
      CandidatesAreSeen(db.rows, db.aggregates, ent, now, c);
    }
  }

  lemma SeenIsListed(db: Db, ent: Id, now: int, c: Candidate)
    requires BookInv(BookOf(db), db.signals) && Seen(db.rows, db.aggregates, ent, now, c)
    ensures ListedFor(DetectedDb(db, ent, now).findings, ent, c)
  {
    var cs := Candidates(db.rows, db.aggregates, ent, now);
    AllHandled(BookOf(db), db.signals, ent, now, cs);
    CandidatesAreSeen(db.rows, db.aggregates, ent, now, c);
    var k :| 0 <= k < |cs| && cs[k] == c;
    assert Handled(DetectedIn(db, ent, now).book, db.signals, ent, c, DetectedIn(db, ent, now).found[k]);
  }
}
