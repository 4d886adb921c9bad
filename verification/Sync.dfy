/** Synchronising a source (src/app/integration/sync.py): the loops over entities and records,
    with the lookup cache, refine the cache-free fold of module SyncSpec. */
module Sync {
  import opened Basics
  import opened Folds
  import opened Tables
  import opened Schema
  import opened SyncSpec
  import opened SyncProps
  import opened Gaps
  import opened JobQueue

  /** The text of a field after the mapping's transform, if it has one. */
  function Transformed(codec: Codec, m: Mapping, raw: string): string {
    match m.transform
    case None => raw
    case Some(t) => codec.transform(t, raw)
  }

  /** The record has the mapped field, not null, and its text is not empty once transformed. */
  predicate Fills(codec: Codec, record: Record, m: Mapping) {
    m.path in record && record[m.path].Some? && Transformed(codec, m, record[m.path].value) != ""
  }

  /** `i` is the last mapping to its attribute that the record fills. */
  ghost predicate LastFilled(codec: Codec, record: Record, ms: seq<Mapping>, i: nat) {
    && i < |ms| && Fills(codec, record, ms[i])
    && forall j :: i < j < |ms| && ms[j].attr == ms[i].attr ==> !Fills(codec, record, ms[j])
  }

  ghost predicate Filled(codec: Codec, record: Record, ms: seq<Mapping>, a: Attr) {
    exists i :: 0 <= i < |ms| && ms[i].attr == a && Fills(codec, record, ms[i])
  }

  /** An attribute has a value exactly when some mapping to it is filled, and the value is the
      transformed text of the last such mapping. */
  ghost predicate ReadsRecord(codec: Codec, record: Record, ms: seq<Mapping>, out: map<Attr, string>) {
    && (forall a: Attr :: a in out <==> Filled(codec, record, ms, a))
    && (forall i: nat :: LastFilled(codec, record, ms, i) ==>
          ms[i].attr in out && out[ms[i].attr] == Transformed(codec, ms[i], record[ms[i].path].value))
  }

  lemma FilledMore(codec: Codec, record: Record, ms: seq<Mapping>, m: Mapping, a: Attr)
    ensures Filled(codec, record, ms + [m], a) <==>
              Filled(codec, record, ms, a) || (m.attr == a && Fills(codec, record, m))
  {
    var more := ms + [m];
    assert more[|ms|] == m;
    if Filled(codec, record, ms, a) {
      var i :| 0 <= i < |ms| && ms[i].attr == a && Fills(codec, record, ms[i]);
      assert more[i] == ms[i];
    }
  }

  lemma LastFilledMore(codec: Codec, record: Record, ms: seq<Mapping>, m: Mapping, i: nat)
    ensures i < |ms| && LastFilled(codec, record, ms + [m], i) ==>
              LastFilled(codec, record, ms, i) && (ms[i].attr == m.attr ==> !Fills(codec, record, m))
  {
    var more := ms + [m];
    assert more[|ms|] == m;
    assert forall j :: 0 <= j < |ms| ==> more[j] == ms[j];
  }

  /** `out` with the value of one more mapping, if that is filled. */
  function ReadOne(codec: Codec, record: Record, m: Mapping, out: map<Attr, string>): map<Attr, string> {
    if Fills(codec, record, m) then out[m.attr := Transformed(codec, m, record[m.path].value)] else out
  }

  lemma ReadsOneMore(codec: Codec, record: Record, ms: seq<Mapping>, m: Mapping, out: map<Attr, string>)
    requires ReadsRecord(codec, record, ms, out)
    ensures ReadsRecord(codec, record, ms + [m], ReadOne(codec, record, m, out))
  {
    var more, after := ms + [m], ReadOne(codec, record, m, out);
    forall a: Attr
      ensures a in after <==> Filled(codec, record, more, a)
    {
      FilledMore(codec, record, ms, m, a);
    }
    forall i: nat | LastFilled(codec, record, more, i)
      ensures more[i].attr in after && after[more[i].attr] == Transformed(codec, more[i], record[more[i].path].value)
    {
      LastFilledMore(codec, record, ms, m, i);
    }
  }

  lemma FieldTextReads(codec: Codec, record: Record, m: Mapping, out: map<Attr, string>)
    ensures ReadOne(codec, record, m, out) ==
            match FieldText(codec, record, m) case None => out case Some(text) => out[m.attr := text]
  {
  }

  method Extract(codec: Codec, record: Record, ms: seq<Mapping>) returns (out: map<Attr, string>)
    ensures out == Extracted(codec, record, ms)
    ensures ReadsRecord(codec, record, ms, out)
  {
    out := map[];
    for n := 0 to |ms|
      invariant out == Extracted(codec, record, ms[..n])
      invariant ReadsRecord(codec, record, ms[..n], out)
    {
      assert ms[..n + 1][..n] == ms[..n];
      assert ms[..n + 1] == ms[..n] + [ms[n]];
      ReadsOneMore(codec, record, ms[..n], ms[n], out);
      FieldTextReads(codec, record, ms[n], out);
      var text := FieldText(codec, record, ms[n]);
      if text.None? {
        continue;
      }
      out := out[ms[n].attr := text.value];
    }
    assert ms[..|ms|] == ms;
  }

  /** The same of the specification. */
  lemma {:induction false} ExtractedReads(codec: Codec, record: Record, ms: seq<Mapping>)
    ensures ReadsRecord(codec, record, ms, Extracted(codec, record, ms))
  {
    if ms != [] {
      var n := |ms| - 1;
      ExtractedReads(codec, record, ms[..n]);
      ReadsOneMore(codec, record, ms[..n], ms[n], Extracted(codec, record, ms[..n]));
      FieldTextReads(codec, record, ms[n], Extracted(codec, record, ms[..n]));
      assert ms == ms[..n] + [ms[n]];
    }
  }

  // ---- the lookup cache ------------------------------------------------------------------------

  /** Target table and natural key, to the row found. */
  type NaturalCache = map<(Entity, string), Id>

  /** Every entry is what a fresh lookup would answer. */
  ghost predicate CacheValid(cache: NaturalCache, rows: seq<Row>, ent: Id) {
    forall k :: k in cache ==> Find(rows, k.0, ent, MasterKey(k.1)) == Some(cache[k])
  }

  lemma CacheStaysValid(cache: NaturalCache, rows: seq<Row>, later: seq<Row>, ent: Id)
    requires CacheValid(cache, rows, ent)
    requires RowsGrow(rows, later) && UniqueKeys(later)
    ensures CacheValid(cache, later, ent)
  {
    forall k | k in cache
      ensures Find(later, k.0, ent, MasterKey(k.1)) == Some(cache[k])
    {
      FindStable(rows, later, k.0, ent, MasterKey(k.1));
    }
  }

  /** A required reference that answers no row makes the record skippable. */
  method ResolveRefs(rows: seq<Row>, ent: Id, e: Entity, attrs: map<Attr, string>, known: NaturalCache)
    returns (fks: Option<map<Column, Id>>, cache: NaturalCache)
    requires CacheValid(known, rows, ent)
    ensures CacheValid(cache, rows, ent)
    ensures fks.None? ==> !Identified(e, attrs, ForeignKeys(e, MastersOf(rows, ent, e, attrs)))
    ensures fks.Some? ==> fks.value == ForeignKeys(e, MastersOf(rows, ent, e, attrs))
  {
    var refs, m, resolved := References(e), MastersOf(rows, ent, e, attrs), map[];
    cache := known;
    for n := 0 to |refs|
      invariant CacheValid(cache, rows, ent)
      invariant forall c :: c in resolved <==> c in refs[..n] && MasterOf(m, c).Some?
      invariant forall c :: c in resolved ==> resolved[c] == MasterOf(m, c).value
    {
      var fk := refs[n];
      ReferencesMatch(e, fk);
      assert refs[..n + 1] == refs[..n] + [fk];
      if RefAttr(fk) !in attrs {
        continue;
      }
      var key := (RefTarget(fk), attrs[RefAttr(fk)]);
      var found := if key in cache then Some(cache[key]) else None;
      if found.None? {
        found := Find(rows, key.0, ent, MasterKey(key.1));
        if found.None? {
          if IsRequired(e, fk) {
            return None, cache;
          }
          continue;
        }
        cache := cache[key := found.value];
      }
      resolved := resolved[fk := found.value];
    }
    assert refs[..|refs|] == refs;
    forall c
      ensures c in resolved <==> c in ForeignKeys(e, m)
    {
      ReferencesMatch(e, c);
    }
    fks := Some(resolved);
  }

  // ---- one upsert ----------------------------------------------------------------------------

  datatype UpsertResult = Refused | Accepted(signal: Option<Signal>)

  /** The record supplies a value for the watched column that is not the stored one. */
  predicate Changes(e: Entity, r: Row, supplied: map<Column, Value>) {
    Watched(e).Some? && Watched(e).value.0 in supplied &&
        supplied[Watched(e).value.0] != Cell(r.cols, Watched(e).value.0)
  }

  /** The signal says which row changed, from which stored value to which supplied one, and
      names the item and supplier the record refers to. */
  ghost predicate Reports(s: Signal, f: Feed, e: Entity, r: Row, i: Id, supplied: map<Column, Value>)
    requires Changes(e, r, supplied)
  {
    var (c, kind) := Watched(e).value;
    && s.row == i && s.entity == e && s.kind == kind
    && s.before == Cell(r.cols, c) && s.after == supplied[c]
    && (forall x: Id :: s.item == Some(x) <==> Cell(supplied, ItemId) == Ref(x))
    && (forall x: Id :: s.supplier == Some(x) <==> Cell(supplied, SupplierId) == Ref(x))
    && s.ent == f.ent && s.source == f.source && s.observedAt == f.fetchedAt
  }

  lemma SomeOrNone(a: Option<Id>, b: Option<Id>)
    requires forall x: Id :: a == Some(x) <==> b == Some(x)
    ensures a == b
  {
    if a.Some? {
      assert b == Some(a.value);
    } else if b.Some? {
      assert a == Some(b.value);
    }
  }

  /** The meaning of a signal determines it. */
  lemma ReportIsDiff(signal: Option<Signal>, f: Feed, e: Entity, rows: seq<Row>, i: Id, supplied: map<Column, Value>)
    requires i < |rows|
    requires signal.Some? <==> Changes(e, rows[i], supplied)
    requires signal.Some? ==> Reports(signal.value, f, e, rows[i], i, supplied)
    ensures signal == Diff(f, e, rows, i, supplied)
  {
    if signal.Some? {
      SomeOrNone(signal.value.item, Diff(f, e, rows, i, supplied).value.item);
      SomeOrNone(signal.value.supplier, Diff(f, e, rows, i, supplied).value.supplier);
    }
  }

  /** The watched column's change, logged before the row is overwritten. */
  method DiffSignal(s: Session, f: Feed, e: Entity, i: Id, supplied: map<Column, Value>)
    returns (signal: Option<Signal>)
    requires i < |s.db.rows|
    modifies s`db
    ensures signal.Some? <==> Changes(e, old(s.db.rows)[i], supplied)
    ensures signal.Some? ==> Reports(signal.value, f, e, old(s.db.rows)[i], i, supplied)
    ensures signal.None? ==> s.db == old(s.db)
    ensures signal.Some? ==> s.db == old(s.db).(signals := old(s.db.signals) + [signal.value])
  {
    var watch := Watched(e);
    if watch.None? {
      return None;
    }
    var (c, kind) := watch.value;
    if c !in supplied {
      return None;
    }
    var before, after := Cell(s.db.rows[i].cols, c), supplied[c];
    if before == after {
      return None;
    }
    var item, supplier := Cell(supplied, ItemId), Cell(supplied, SupplierId);
    var reported := Signal(f.ent, f.source, kind,
                           if item.Ref? then Some(item.id) else None,
                           if supplier.Ref? then Some(supplier.id) else None,
                           e, before, after, f.fetchedAt, i);
    s.db := s.db.(signals := s.db.signals + [reported]);
    signal := Some(reported);
  }

  method Upsert(s: Session, f: Feed, e: Entity, supplied: map<Column, Value>) returns (r: UpsertResult)
    modifies s`db
    ensures r.Refused? <==> Upserted(f, e, supplied, old(s.db.rows)).None?
    ensures r.Accepted? ==>
              var u := Upserted(f, e, supplied, old(s.db.rows)).value;
              && r.signal == u.signal
              && s.db == old(s.db).(rows := u.rows, signals := Log(old(s.db.signals), u.signal))
  {
    var existing := Find(s.db.rows, e, f.ent, KeyOf(e, supplied));
    if existing.None? {
      var row := NewRow(f, e, supplied);
      if !Storable(e, row.cols) {
        return Refused;
      }
      s.db := s.db.(rows := s.db.rows + [row]);
      return Accepted(None);
    }
    var i := existing.value;
    var signal := DiffSignal(s, f, e, i, supplied);
    ReportIsDiff(signal, f, e, old(s.db.rows), i, supplied);
    if !Storable(e, Written(e, supplied)) {
      return Refused;
    }
    s.db := s.db.(rows := s.db.rows[i := UpdatedRow(f, e, s.db.rows[i], supplied)]);
    r := Accepted(signal);
  }

  // ---- the transaction -----------------------------------------------------------------------

  method Count(e: Entity, signal: Option<Signal>, n: Counters) returns (m: Counters)
    ensures m == Counted(e, signal, n)
  {
    m := n.(upserts := n.upserts[e := (if e in n.upserts then n.upserts[e] else 0) + 1]);
    if signal.Some? {
      m := m.(created := m.created + 1);
      if signal.value.item.Some? {
        m := m.(touched := m.touched + {signal.value.item.value});
      }
    }
  }

  /** A plan read from the cache's references is the plan of a fresh lookup. */
  method PlanRecord(rows: seq<Row>, f: Feed, line: Line, known: NaturalCache)
    returns (plan: Option<map<Column, Value>>, cache: NaturalCache)
    requires CacheValid(known, rows, f.ent)
    ensures CacheValid(cache, rows, f.ent)
    ensures plan == PlanOf(f, rows, line)
  {
    var attrs := Extract(f.codec, line.record, line.ms);
    if attrs == map[] {
      return None, known;
    }
    var fks;
    fks, cache := ResolveRefs(rows, f.ent, line.entity, attrs, known);
    if fks.None? {
      return None, cache;
    }
    if !Identified(line.entity, attrs, fks.value) {
      return None, cache;
    }
    plan := Some(Supplied(f.codec, line.entity, attrs, fks.value));
  }

  /** One record read as one entity. */
  method ReadRecord(s: Session, f: Feed, line: Line, known: NaturalCache, counts: Counters)
    returns (ok: bool, cache: NaturalCache, counted: Counters)
    requires DataInv(s.db.rows, s.db.signals) && CacheValid(known, s.db.rows, f.ent)
    modifies s`db
    ensures ok <==> Step(f, Progress(old(s.db.rows), old(s.db.signals), counts), line).Some?
    ensures ok ==>
              Step(f, Progress(old(s.db.rows), old(s.db.signals), counts), line)
              == Some(Progress(s.db.rows, s.db.signals, counted))
    ensures ok ==> s.db == old(s.db).(rows := s.db.rows, signals := s.db.signals)
    ensures ok ==> DataInv(s.db.rows, s.db.signals) && CacheValid(cache, s.db.rows, f.ent)
  {
    ghost var p := Progress(s.db.rows, s.db.signals, counts);
    if Step(f, p, line).Some? {
      StepKeepsData(f, p, line);
    }
    var plan;
    plan, cache := PlanRecord(s.db.rows, f, line, known);
    if plan.None? {
      return true, cache, counts;
    }
    if Step(f, p, line).Some? {
      CacheStaysValid(cache, s.db.rows, Step(f, p, line).value.rows, f.ent);
    }
    var result := Upsert(s, f, line.entity, plan.value);
    if result.Refused? {
      return false, cache, counts;
    }
    ok := true;
    counted := Count(line.entity, result.signal, counts);
  }

  /** The inner loop: every record of the batch read as one entity. */
  method ReadEntity(s: Session, f: Feed, e: Entity, ms: seq<Mapping>, records: seq<Record>,
                    known: NaturalCache, counts: Counters, ghost p0: Progress, ghost before: seq<Line>)
    returns (ok: bool, cache: NaturalCache, counted: Counters)
    requires DataInv(s.db.rows, s.db.signals) && CacheValid(known, s.db.rows, f.ent)
    requires Fold(Reader(f), p0, before) == Some(Progress(s.db.rows, s.db.signals, counts))
    modifies s`db
    ensures ok <==> Fold(Reader(f), p0, before + EntityLines(e, ms, records)).Some?
    ensures ok ==>
              Fold(Reader(f), p0, before + EntityLines(e, ms, records))
              == Some(Progress(s.db.rows, s.db.signals, counted))
    ensures ok ==> s.db == old(s.db).(rows := s.db.rows, signals := s.db.signals)
    ensures ok ==> DataInv(s.db.rows, s.db.signals) && CacheValid(cache, s.db.rows, f.ent)
  {
    ok, cache, counted := true, known, counts;
    assert before + EntityLines(e, ms, records[..0]) == before;
    for i := 0 to |records|
      invariant ok
      invariant s.db == old(s.db).(rows := s.db.rows, signals := s.db.signals)
      invariant DataInv(s.db.rows, s.db.signals) && CacheValid(cache, s.db.rows, f.ent)
      invariant Fold(Reader(f), p0, before + EntityLines(e, ms, records[..i])) ==
                    Some(Progress(s.db.rows, s.db.signals, counted))
    {
      OneMoreLine(f, p0, before, e, ms, records, i);
      ghost var p := Progress(s.db.rows, s.db.signals, counted);
      assert Reader(f)(p, Line(e, ms, records[i])) == Step(f, p, Line(e, ms, records[i]));
      ok, cache, counted := ReadRecord(s, f, Line(e, ms, records[i]), cache, counted);
      if !ok {
        return;
      }
    }
    assert records[..|records|] == records;
  }

  lemma EntityLinesSplit(before: seq<Line>, e: Entity, ms: seq<Mapping>, records: seq<Record>, i: nat)
    requires i < |records|
    ensures before + EntityLines(e, ms, records[..i + 1]) ==
                before + EntityLines(e, ms, records[..i]) + [Line(e, ms, records[i])]
    ensures before + EntityLines(e, ms, records) ==
            before + EntityLines(e, ms, records[..i]) + [Line(e, ms, records[i])] + EntityLines(e, ms, records[i + 1..])
  {
  }

  /** The fold over one more record; if that record raises, so does the whole batch. */
  lemma OneMoreLine(f: Feed, p0: Progress, before: seq<Line>, e: Entity, ms: seq<Mapping>, records: seq<Record>, i: nat)
    requires i < |records| && Fold(Reader(f), p0, before + EntityLines(e, ms, records[..i])).Some?
    ensures var p := Fold(Reader(f), p0, before + EntityLines(e, ms, records[..i])).value;
            var q := Reader(f)(p, Line(e, ms, records[i]));
            && Fold(Reader(f), p0, before + EntityLines(e, ms, records[..i + 1])) == q
            && (q.None? ==> Fold(Reader(f), p0, before + EntityLines(e, ms, records)).None?)
  {
    EntityLinesSplit(before, e, ms, records, i);
    FoldNext(Reader(f), p0, before + EntityLines(e, ms, records[..i]), Line(e, ms, records[i]),
        EntityLines(e, ms, records[i + 1..]));
  }

  lemma {:induction false} LinesSplit(ms: seq<Mapping>, records: seq<Record>, order: seq<Entity>, n: nat)
    returns (rest: seq<Line>)
    requires n <= |order|
    ensures Lines(ms, records, order) == Lines(ms, records, order[..n]) + rest
  {
    var m := |order| - 1;
    if n <= m {
      assert order[..m][..n] == order[..n];
      var shorter := LinesSplit(ms, records, order[..m], n);
      rest := shorter + LinesOf(ms, records, order[m]);
    } else {
      assert order[..n] == order;
      rest := [];
    }
  }

  /** A batch that raises within the first entities raises. */
  lemma RaisesEarly(f: Feed, p0: Progress, ms: seq<Mapping>, records: seq<Record>, order: seq<Entity>, n: nat)
    requires n <= |order| && Fold(Reader(f), p0, Lines(ms, records, order[..n])).None?
    ensures Fold(Reader(f), p0, Lines(ms, records, order)).None?
  {
    var rest := LinesSplit(ms, records, order, n);
    FoldAppend(Reader(f), p0, Lines(ms, records, order[..n]), rest);
  }

  lemma LinesMore(ms: seq<Mapping>, records: seq<Record>, order: seq<Entity>, n: nat)
    requires n < |order|
    ensures var own, lines := ForEntity(ms, order[n]), Lines(ms, records, order[..n]);
            Lines(ms, records, order[..n + 1]) ==
            if own == [] then lines else lines + EntityLines(order[n], own, records)
  {
    assert order[..n + 1][..n] == order[..n];
    assert Lines(ms, records, order[..n]) + [] == Lines(ms, records, order[..n]);
  }

  /** The outer loop over the entities in order; those without mappings are skipped. */
  method ReadBatch(s: Session, f: Feed, order: seq<Entity>, ms: seq<Mapping>, records: seq<Record>)
    returns (ok: bool, counts: Counters)
    requires DataInv(s.db.rows, s.db.signals)
    modifies s`db
    ensures ok <==> Fold(Reader(f), Start(old(s.db.rows), old(s.db.signals)), Lines(ms, records, order)).Some?
    ensures ok ==> Fold(Reader(f), Start(old(s.db.rows), old(s.db.signals)), Lines(ms, records, order))
                   == Some(Progress(s.db.rows, s.db.signals, counts))
    ensures ok ==> s.db == old(s.db).(rows := s.db.rows, signals := s.db.signals)
  {
    ghost var p0 := Start(s.db.rows, s.db.signals);
    var cache: NaturalCache := map[];
    counts := Counters(map[], 0, {});
    for n := 0 to |order|
      invariant s.db == old(s.db).(rows := s.db.rows, signals := s.db.signals)
      invariant DataInv(s.db.rows, s.db.signals) && CacheValid(cache, s.db.rows, f.ent)
      invariant Fold(Reader(f), p0, Lines(ms, records, order[..n])) == Some(Progress(s.db.rows, s.db.signals, counts))
    {
      LinesMore(ms, records, order, n);
      var own := ForEntity(ms, order[n]);
      if own == [] {
        continue;
      }
      ok, cache, counts := ReadEntity(s, f, order[n], own, records, cache, counts, p0, Lines(ms, records, order[..n]));
      if !ok {
        RaisesEarly(f, p0, ms, records, order, n + 1);
        return;
      }
    }
    assert order[..|order|] == order;
    ok := true;
  }

  datatype SyncResult =
    | Raised(message: string)
    | Returned(fetchedAt: int, recordsSeen: nat, upserts: map<Entity, nat>, signalsCreated: nat)

  function FailedFetch(db: Db, ent: Id, source: Id, error: string, now: int): Db
    requires source < |db.sources|
  {
    db.(sources := db.sources[source := db.sources[source].(health := Unavailable, lastError := Some(error),
                                                              lastCheckAt := Some(now))],
        gaps := Opened(db.gaps, SourceGap(ent, source), now))
  }

  method SyncSource(s: Session, ent: Id, source: Id, intake: Intake, now: int)
    returns (r: SyncResult)
    requires DataInv(s.db.rows, s.db.signals)
    modifies s`db
    ensures r.Returned? <==> SyncedDb(old(s.db), ent, source, intake, now).Some?
    ensures r.Returned? ==> Some(s.db) == SyncedDb(old(s.db), ent, source, intake, now)
    ensures r.Returned? ==>
              var p := Synced(FeedOf(ent, source, intake, now), intake.mappings, intake.fetch.records,
                              old(s.db.rows), old(s.db.signals)).value;
              r == Returned(intake.fetch.fetchedAt, |intake.fetch.records|, p.counts.upserts, p.counts.created)
    ensures r.Raised? && Owns(old(s.db), ent, source) && intake.fetch.FetchFailed? ==>
              s.db == FailedFetch(old(s.db), ent, source, intake.fetch.error, now)
    ensures source >= |old(s.db.sources)| || old(s.db.sources)[source].ent != ent || intake.fetch.FetchFailed? ==>
              r.Raised?
    ensures r.Returned? ==>
              && source < |old(s.db.sources)|
              && s.db.sources == old(s.db.sources)[source := old(s.db.sources)[source].(
                   health := Available, lastError := None, lastSuccessAt := Some(intake.fetch.fetchedAt),
                   lastCheckAt := Some(now))]
    ensures r.Raised? && source < |old(s.db.sources)| && old(s.db.sources)[source].ent == ent
            && intake.fetch.FetchFailed? ==>
              s.db.sources == old(s.db.sources)[source := old(s.db.sources)[source].(
                health := Unavailable, lastError := Some(intake.fetch.error), lastCheckAt := Some(now))]
  {
    if !Owns(s.db, ent, source) {
      return Raised("data source not found");
    }
    if intake.fetch.FetchFailed? {
      var src := s.db.sources[source].(health := Unavailable, lastError := Some(intake.fetch.error),
          lastCheckAt := Some(now));
      s.db := s.db.(sources := s.db.sources[source := src]);
      var _ := OpenGap(s, SourceGap(ent, source), now);
      return Raised("sync failed");
    }

    var f := FeedOf(ent, source, intake, now);
    var ok, counts := ReadBatch(s, f, ENTITY_ORDER, intake.mappings, intake.fetch.records);
    if !ok {
      return Raised("the database refused a row");
    }
    var src := s.db.sources[source].(health := Available, lastError := None,
                                     lastSuccessAt := Some(intake.fetch.fetchedAt), lastCheckAt := Some(now));
    s.db := s.db.(sources := s.db.sources[source := src]);
    CloseGap(s, SourceGap(ent, source), now);
    if counts.created > 0 {
      Enqueue(s, RecomputeAggregates(ent, counts.touched), now);
    }
    r := Returned(intake.fetch.fetchedAt, |intake.fetch.records|, counts.upserts, counts.created);
  }
}
