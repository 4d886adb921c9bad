/** When aggregates go stale (src/app/integration/sync.py:205-231, src/app/observation/jobs.py:21-34):
    an item that only watched updates touch is up to date or has an open recomputation; what no
    signal reports (insertions, consumption, purchase orders) no job follows. */
module Freshness {
  import opened Basics
  import opened Folds
  import opened Tables
  import opened Schema
  import opened SyncSpec
  import opened SyncProps
  import opened Aggregates
  import opened AggregateProps
  import opened Worker
  import opened Pipeline
  import opened Chains
  import opened Invariant

  // ---- figures ignore provenance -----------------------------------------------------------------------

  /** A row without where and when it was last read. */
  function Plain(r: Row): Row {
    r.(source := 0, fetchedAt := 0)
  }

  function PlainRows(rows: seq<Row>): (q: seq<Row>)
    ensures |q| == |rows| && forall i :: 0 <= i < |rows| ==> q[i] == Plain(rows[i])
  {
    if rows == [] then [] else PlainRows(rows[..|rows| - 1]) + [Plain(rows[|rows| - 1])]
  }

  lemma PlainMore(rows: seq<Row>, r: Row)
    ensures PlainRows(rows + [r]) == PlainRows(rows) + [Plain(r)]
  {
    assert (rows + [r])[..|rows|] == rows;
  }

  lemma {:induction false} QueryPlain(rows: seq<Row>, e: Entity, item: Id)
    ensures Query(PlainRows(rows), e, item) == PlainRows(Query(rows, e, item))
  {
    if rows != [] {
      var n := |rows| - 1;
      QueryPlain(rows[..n], e, item);
      PlainMore(Query(rows[..n], e, item), rows[n]);
      assert PlainRows(rows)[..n] == PlainRows(rows[..n]);
    }
  }

  lemma SortKeyPlain(r: Row, key: Column)
    ensures SortKeyOf(Plain(r), key) == SortKeyOf(r, key)
  {
    assert Cell(Plain(r).cols, key) == Cell(r.cols, key);
  }

  lemma PrecedesPlain(a: Row, b: Row, key: Column)
    ensures Precedes(Plain(a), Plain(b), key) == Precedes(a, b, key)
  {
    SortKeyPlain(a, key);
    SortKeyPlain(b, key);
  }

  lemma {:induction false} LatestPlain(q: seq<Row>, key: Column, skip: Option<Id>)
    ensures Latest(PlainRows(q), key, skip) == Latest(q, key, skip)
  {
    if q != [] {
      var n := |q| - 1;
      LatestPlain(q[..n], key, skip);
      assert PlainRows(q)[..n] == PlainRows(q[..n]);
      LatestLast(q, key, skip);
      LatestLast(PlainRows(q), key, skip);
      var best := Latest(q[..n], key, skip);
      if best.Some? {
        PrecedesPlain(q[n], q[best.value], key);
      }
    }
  }

  lemma {:induction false} TotalPlain(q: seq<Row>)
    ensures TotalStock(PlainRows(q)) == TotalStock(q)
  {
    if q != [] {
      TotalPlain(q[..|q| - 1]);
      assert PlainRows(q)[..|q| - 1] == PlainRows(q[..|q| - 1]);
    }
  }

  lemma {:induction false} NextPlain(q: seq<Row>)
    ensures NextExpectedDelivery(PlainRows(q)) == NextExpectedDelivery(q)
  {
    if q != [] {
      NextPlain(q[..|q| - 1]);
      assert PlainRows(q)[..|q| - 1] == PlainRows(q[..|q| - 1]);
    }
  }

  lemma {:induction false} DelaysPlain(q: seq<Row>)
    ensures Delays(PlainRows(q)) == Delays(q)
  {
    if q != [] {
      DelaysPlain(q[..|q| - 1]);
      assert PlainRows(q)[..|q| - 1] == PlainRows(q[..|q| - 1]);
    }
  }

  lemma RowPlain(r: Row, c: Column)
    ensures Amount(Plain(r), c) == Amount(r, c) && PeriodDays(Plain(r)) == PeriodDays(r)
  {
  }

  lemma DailyPlain(q: seq<Row>)
    ensures AvgDailyConsumption(PlainRows(q)) == AvgDailyConsumption(q)
  {
    LatestPlain(q, PeriodEnd, None);
    match Latest(q, PeriodEnd, None)
    case None =>
    case Some(i) =>
      RowPlain(q[i], Quantity);
      assert PlainRows(q)[i] == Plain(q[i]);
  }

  lemma AmountPlain(q: seq<Row>, i: Option<Id>, c: Column)
    requires i.Some? ==> i.value < |q|
    ensures AmountAt(PlainRows(q), i, c) == AmountAt(q, i, c)
  {
  }

  lemma TrendPlain(q: seq<Row>)
    ensures PriceTrend(PlainRows(q)) == PriceTrend(q)
  {
    var i := Latest(q, ValidFrom, None);
    LatestPlain(q, ValidFrom, None);
    AmountPlain(q, i, UnitPrice);
    if i.Some? {
      LatestPlain(q, ValidFrom, i);
      AmountPlain(q, Latest(q, ValidFrom, i), UnitPrice);
    }
  }

  lemma FiguresFromPlain(stock: seq<Row>, consumption: seq<Row>, prices: seq<Row>, orders: seq<Row>)
    ensures FiguresFrom(PlainRows(stock), PlainRows(consumption), PlainRows(prices), PlainRows(orders)) ==
            FiguresFrom(stock, consumption, prices, orders)
  {
    TotalPlain(stock);
    DailyPlain(consumption);
    TrendPlain(prices);
    NextPlain(orders);
    DelaysPlain(orders);
  }

  lemma FiguresPlain(rows: seq<Row>, item: Id)
    ensures FiguresOf(PlainRows(rows), item) == FiguresOf(rows, item)
  {
    QueryPlain(rows, StockLevel, item);
    QueryPlain(rows, Consumption, item);
    QueryPlain(rows, Price, item);
    QueryPlain(rows, PurchaseOrder, item);
    FiguresFromPlain(Query(rows, StockLevel, item), Query(rows, Consumption, item),
                     Query(rows, Price, item), Query(rows, PurchaseOrder, item));
  }

  // ---- rows that touch an item ---------------------------------------------------------------------------

  predicate Concerns(r: Row, item: Id) {
    Cell(r.cols, ItemId) == Ref(item)
  }

  /** Row `i` of the later rows is new to the item, or differs from before in more than when and
      where it was read. */
  predicate Touched(rows: seq<Row>, later: seq<Row>, item: Id, i: Id)
    requires |rows| <= |later|
  {
    && i < |later|
    && if i < |rows| then (Concerns(rows[i], item) || Concerns(later[i], item)) && Plain(later[i]) != Plain(rows[i])
       else Concerns(later[i], item)
  }

  lemma {:induction false} UntouchedRelevant(rows: seq<Row>, later: seq<Row>, item: Id)
    requires |rows| <= |later|
    requires forall i: Id :: i < |later| ==> !Touched(rows, later, item, i)
    ensures Relevant(PlainRows(later), item) == Relevant(PlainRows(rows), item)
  {
    if later != [] {
      var m := |later| - 1;
      var init := later[..m];
      assert PlainRows(later)[..m] == PlainRows(init);
      if |rows| == |later| {
        forall i: Id | i < m
          ensures !Touched(rows[..m], init, item, i)
        {
          assert !Touched(rows, later, item, i);
        }
        UntouchedRelevant(rows[..m], init, item);
        assert PlainRows(rows)[..m] == PlainRows(rows[..m]);
        assert !Touched(rows, later, item, m);
      } else {
        forall i: Id | i < m
          ensures !Touched(rows, init, item, i)
        {
          assert !Touched(rows, later, item, i);
        }
        UntouchedRelevant(rows, init, item);
        assert !Touched(rows, later, item, m);
      }
    }
  }

  /** An item none of whose rows is touched keeps its figures. */
  lemma UntouchedKeepsFigures(rows: seq<Row>, later: seq<Row>, item: Id)
    requires |rows| <= |later|
    requires forall i: Id :: i < |later| ==> !Touched(rows, later, item, i)
    ensures FiguresOf(later, item) == FiguresOf(rows, item)
  {
    UntouchedRelevant(rows, later, item);
    FiguresRelevant(PlainRows(later), PlainRows(rows), item);
    FiguresPlain(later, item);
    FiguresPlain(rows, item);
  }

  ghost predicate Reported(signals: seq<Signal>, later: seq<Signal>, i: Id) {
    exists k :: |signals| <= k < |later| && later[k].row == i
  }

  /** Every row that touches the item was reported by a signal: so it was there before, and its
      watched column changed. */
  ghost predicate TouchedByWatched(db: Db, later: Db, item: Id) {
    |db.rows| <= |later.rows| &&
    forall i: Id :: Touched(db.rows, later.rows, item, i) ==> Reported(db.signals, later.signals, i)
  }

  // ---- up to date, or about to be ------------------------------------------------------------------------

  predicate OpenCover(j: Job, ent: Id, item: Id) {
    j.task.RecomputeAggregates? && j.task.ent == ent && item in j.task.items && !j.status.Done?
  }

  ghost predicate AboutToRefresh(jobs: seq<Job>, ent: Id, item: Id) {
    exists i :: 0 <= i < |jobs| && OpenCover(jobs[i], ent, item)
  }

  /** The item's aggregate is what a recomputation would write now, or there is a recomputation of
      the item that is not done. */
  ghost predicate FreshOrOpen(db: Db, ent: Id, item: Id) {
    UpToDate(db.aggregates, db.rows, item) || AboutToRefresh(db.jobs, ent, item)
  }

  lemma OpenStays(jobs: seq<Job>, later: seq<Job>, ent: Id, item: Id)
    requires AboutToRefresh(jobs, ent, item) && NoneCompleted(jobs, later)
    ensures AboutToRefresh(later, ent, item)
  {
    var i :| 0 <= i < |jobs| && OpenCover(jobs[i], ent, item);
    assert OpenCover(later[i], ent, item);
  }

  /** Only the job that ran can have been the last open one. */
  lemma OpenStaysBut(jobs: seq<Job>, later: seq<Job>, ent: Id, item: Id, id: Id)
    requires AboutToRefresh(jobs, ent, item) && OnlyJob(jobs, later, id) && id < |jobs|
    requires !OpenCover(jobs[id], ent, item) || !later[id].status.Done?
    ensures AboutToRefresh(later, ent, item)
  {
    var i :| 0 <= i < |jobs| && OpenCover(jobs[i], ent, item);
    assert OpenCover(later[i], ent, item);
  }

  /** A new signal of a row that touches the item names the item. */
  lemma SignalNamesTouched(rows: seq<Row>, later: seq<Row>, s: Signal, item: Id)
    requires RowsGrow(rows, later) && ItemKnown(later, s) && Touched(rows, later, item, s.row)
    ensures s.item == Some(item)
  {
    var e := later[s.row].entity;
    WatchedKey(e, later[s.row].cols);
    if s.row < |rows| {
      WatchedKey(e, rows[s.row].cols);
    }
  }

  /** A synchronisation that touches the item enqueues its recomputation. */
  lemma TouchIsCovered(db: Db, source: Id, owner: Id, env: Env, ent: Id, item: Id, i: Id)
    requires DataInv(db.rows, db.signals) && ItemRow(db.rows, ent, item)
    requires SyncedDb(db, owner, source, env.intake, env.now).Some?
    requires var synced := SyncedDb(db, owner, source, env.intake, env.now).value;
             && |db.rows| <= |synced.rows| && Touched(db.rows, synced.rows, item, i)
             && Reported(db.signals, synced.signals, i)
    ensures var synced := SyncedDb(db, owner, source, env.intake, env.now).value;
            |synced.jobs| == |db.jobs| + 1 && OpenCover(synced.jobs[|db.jobs|], ent, item)
  {
    var synced := SyncedDb(db, owner, source, env.intake, env.now).value;
    SyncCovers(db, owner, source, env);
    var k :| |db.signals| <= k < |synced.signals| && synced.signals[k].row == i;
    SignalNamesTouched(db.rows, synced.rows, synced.signals[k], item);
    assert Covers(synced.jobs[|db.jobs|], synced.signals[k], k);
    SyncAppendsJobs(db, owner, source, env);
  }

  lemma SyncStaysFresh(db: Db, id: Id, env: Env, ent: Id, item: Id)
    requires DataInv(db.rows, db.signals) && ItemRow(db.rows, ent, item)
    requires id < |db.jobs| && db.jobs[id].task.ObserveSource? && Effect(db, db.jobs[id].task, env).Some?
    requires FreshOrOpen(db, ent, item) && TouchedByWatched(db, Ran(db, id, env), item)
    ensures FreshOrOpen(Ran(db, id, env), ent, item)
  {
    var task, after := db.jobs[id].task, Ran(db, id, env);
    var synced := SyncedDb(db, task.ent, task.source, env.intake, env.now).value;
    RanOnlyJob(db, id, env);
    if i: Id :| Touched(db.rows, after.rows, item, i) {
      TouchIsCovered(db, task.source, task.ent, env, ent, item, i);
      assert after.jobs[|db.jobs|] == synced.jobs[|db.jobs|];
    } else {
      UntouchedKeepsFigures(db.rows, after.rows, item);
      if AboutToRefresh(db.jobs, ent, item) {
        OpenStaysBut(db.jobs, after.jobs, ent, item, id);
      }
    }
  }

  lemma RecomputeStaysFresh(db: Db, id: Id, env: Env, ent: Id, item: Id)
    requires OnePerItem(db.aggregates) && ItemRow(db.rows, ent, item)
    requires id < |db.jobs| && db.jobs[id].task.RecomputeAggregates? && Effect(db, db.jobs[id].task, env).Some?
    requires FreshOrOpen(db, ent, item)
    ensures FreshOrOpen(Ran(db, id, env), ent, item)
  {
    var task := db.jobs[id].task;
    RecomputeEffect(db.aggregates, db.rows, task.ent, ItemsInScope(db.rows, task.ent, task.items), env.now, item);
    RanOnlyJob(db, id, env);
    if AboutToRefresh(db.jobs, ent, item) && !OpenCover(db.jobs[id], ent, item) {
      OpenStaysBut(db.jobs, Ran(db, id, env).jobs, ent, item, id);
    }
  }

  lemma OthersKeepFigures(db: Db, id: Id, env: Env)
    requires id < |db.jobs|
    requires Effect(db, db.jobs[id].task, env).None?
             || (!db.jobs[id].task.ObserveSource? && !db.jobs[id].task.RecomputeAggregates?)
    ensures Ran(db, id, env).rows == db.rows && Ran(db, id, env).aggregates == db.aggregates
  {
  }

  /** Attempts at other jobs, and attempts that raise, change neither rows nor aggregates. */
  lemma OthersStayFresh(db: Db, id: Id, env: Env, ent: Id, item: Id)
    requires id < |db.jobs| && FreshOrOpen(db, ent, item)
    requires Effect(db, db.jobs[id].task, env).None?
             || (!db.jobs[id].task.ObserveSource? && !db.jobs[id].task.RecomputeAggregates?)
    ensures FreshOrOpen(Ran(db, id, env), ent, item)
  {
    OthersKeepFigures(db, id, env);
    RanOnlyJob(db, id, env);
    if AboutToRefresh(db.jobs, ent, item) {
      OpenStaysBut(db.jobs, Ran(db, id, env).jobs, ent, item, id);
    }
  }

  lemma RunStaysFresh(db: Db, id: Id, env: Env, ent: Id, item: Id)
    requires DataInv(db.rows, db.signals) && OnePerItem(db.aggregates) && ItemRow(db.rows, ent, item)
    requires id < |db.jobs| && FreshOrOpen(db, ent, item) && TouchedByWatched(db, Ran(db, id, env), item)
    ensures FreshOrOpen(Ran(db, id, env), ent, item)
  {
    var task := db.jobs[id].task;
    if Effect(db, task, env).None? {
      OthersStayFresh(db, id, env, ent, item);
    } else if task.ObserveSource? {
      SyncStaysFresh(db, id, env, ent, item);
    } else if task.RecomputeAggregates? {
      RecomputeStaysFresh(db, id, env, ent, item);
    } else {
      OthersStayFresh(db, id, env, ent, item);
    }
  }

  ghost predicate NoneCompleted(jobs: seq<Job>, later: seq<Job>) {
    && |jobs| <= |later|
    && forall i :: 0 <= i < |jobs| ==> later[i].task == jobs[i].task && (later[i].status.Done? ==> jobs[i].status.Done?)
  }

  /** Only an attempt changes rows or aggregates, or completes a job. */
  lemma OtherSteps(sys: Sys, step: Step)
    requires Next(sys, step).Some? && !step.RunStep?
    ensures var db := Next(sys, step).value.db;
            db.rows == sys.db.rows && db.aggregates == sys.db.aggregates && NoneCompleted(sys.db.jobs, db.jobs)
  {
  }

  lemma QueueStaysFresh(db: Db, later: Db, ent: Id, item: Id)
    requires FreshOrOpen(db, ent, item) && later.rows == db.rows && later.aggregates == db.aggregates
    requires NoneCompleted(db.jobs, later.jobs)
    ensures FreshOrOpen(later, ent, item)
  {
    if AboutToRefresh(db.jobs, ent, item) {
      OpenStays(db.jobs, later.jobs, ent, item);
    }
  }

  /** A step under which every row that touches the item is reported keeps it up to date or about
      to be refreshed. */
  lemma StepStaysFresh(sys: Sys, step: Step, ent: Id, item: Id)
    requires SysInv(sys) && Next(sys, step).Some? && ItemRow(sys.db.rows, ent, item)
    requires FreshOrOpen(sys.db, ent, item) && TouchedByWatched(sys.db, Next(sys, step).value.db, item)
    ensures FreshOrOpen(Next(sys, step).value.db, ent, item)
  {
    match step
    case RunStep(w, env) => RunStaysFresh(sys.db, Held(sys, w)[0], env, ent, item);
    case _ =>
      OtherSteps(sys, step);
      QueueStaysFresh(sys.db, Next(sys, step).value.db, ent, item);
  }

  /** At every step of the run, what touches the item is reported. */
  ghost predicate AlwaysReported(sys: Sys, steps: seq<Step>, item: Id)
    decreases |steps|
  {
    steps != [] ==>
      var n := |steps| - 1;
      var mid, last := Exec(sys, steps[..n]), Exec(sys, steps);
      && AlwaysReported(sys, steps[..n], item)
      && (mid.Some? && last.Some? ==> TouchedByWatched(mid.value.db, last.value.db, item))
  }

  /** Over every run: an item that was up to date, and has since been touched only by watched
      updates, is up to date or has a recomputation that is not done. */
  lemma {:induction false} NeverSilentlyStale(sys: Sys, steps: seq<Step>, ent: Id, item: Id)
    requires SysInv(sys) && Exec(sys, steps).Some? && ItemRow(sys.db.rows, ent, item)
    requires FreshOrOpen(sys.db, ent, item) && AlwaysReported(sys, steps, item)
    ensures var last := Exec(sys, steps).value;
            SysInv(last) && ItemRow(last.db.rows, ent, item) && FreshOrOpen(last.db, ent, item)
  {
    if steps != [] {
      var n := |steps| - 1;
      var mid := Exec(sys, steps[..n]).value;
      NeverSilentlyStale(sys, steps[..n], ent, item);
      StepOnData(mid, steps[n]);
      SysInvKept(mid, steps[n]);
      StepStaysFresh(mid, steps[n], ent, item);
    }
  }

  // ---- a blocked recomputation -----------------------------------------------------------------------------

  /** In every state from which the run goes on, the job's scope holds an item that overflows. */
  ghost predicate AlwaysBlocked(sys: Sys, steps: seq<Step>, ent: Id, items: set<Id>)
    decreases |steps|
  {
    steps != [] ==>
      var mid := Exec(sys, steps[..|steps| - 1]);
      && AlwaysBlocked(sys, steps[..|steps| - 1], ent, items)
      && (mid.Some? ==> Blocked(mid.value.db.rows, ent, items))
  }

  lemma BlockedRun(db: Db, mine: Id, env: Env, id: Id)
    requires mine < |db.jobs| && id < |db.jobs| && !db.jobs[id].status.Done?
    requires db.jobs[id].task.RecomputeAggregates? && Blocked(db.rows, db.jobs[id].task.ent, db.jobs[id].task.items)
    ensures var jobs := Ran(db, mine, env).jobs;
            id < |jobs| && jobs[id].task == db.jobs[id].task && !jobs[id].status.Done?
  {
    if mine == id {
      RecomputationBlocked(db, id, env);
    } else {
      RanOnlyJob(db, mine, env);
    }
  }

  lemma BlockedStep(sys: Sys, step: Step, id: Id)
    requires Next(sys, step).Some? && id < |sys.db.jobs| && !sys.db.jobs[id].status.Done?
    requires sys.db.jobs[id].task.RecomputeAggregates?
    requires Blocked(sys.db.rows, sys.db.jobs[id].task.ent, sys.db.jobs[id].task.items)
    ensures var jobs := Next(sys, step).value.db.jobs;
            id < |jobs| && jobs[id].task == sys.db.jobs[id].task && !jobs[id].status.Done?
  {
    match step
    case RunStep(w, env) => BlockedRun(sys.db, Held(sys, w)[0], env, id);
    case _ => OtherSteps(sys, step);
  }

  /** A recomputation whose scope stays blocked is never done, so it refreshes no item at all;
      with its attempts used up it has failed. */
  lemma {:induction false} BlockedNeverDone(sys: Sys, steps: seq<Step>, id: Id)
    requires Exec(sys, steps).Some? && id < |sys.db.jobs| && !sys.db.jobs[id].status.Done?
    requires sys.db.jobs[id].task.RecomputeAggregates?
    requires AlwaysBlocked(sys, steps, sys.db.jobs[id].task.ent, sys.db.jobs[id].task.items)
    ensures var jobs := Exec(sys, steps).value.db.jobs;
            id < |jobs| && jobs[id].task == sys.db.jobs[id].task && !jobs[id].status.Done?
  {
    if steps != [] {
      var n := |steps| - 1;
      BlockedNeverDone(sys, steps[..n], id);
      BlockedStep(Exec(sys, steps[..n]).value, steps[n], id);
    }
  }

  // ---- what no signal reports ----------------------------------------------------------------------------

  lemma InsertIsSilent(f: Feed, e: Entity, supplied: map<Column, Value>, rows: seq<Row>)
    requires Upserted(f, e, supplied, rows).Some?
    requires Watched(e).None? || Find(rows, e, f.ent, KeyOf(e, supplied)).None?
    ensures Upserted(f, e, supplied, rows).value.signal.None?
  {
  }

  /** A batch mapped only onto unwatched entities (items, consumption, purchase orders, ...) logs
      no signal, whatever it inserts or changes. */
  lemma {:induction false} UnwatchedIsSilent(f: Feed, p: Progress, lines: seq<Line>)
    requires Fold(Reader(f), p, lines).Some?
    requires forall line :: line in lines ==> Watched(line.entity).None?
    ensures Fold(Reader(f), p, lines).value.signals == p.signals
  {
    if lines != [] {
      var n := |lines| - 1;
      assert lines[n] in lines;
      UnwatchedIsSilent(f, p, lines[..n]);
      var q, line := Fold(Reader(f), p, lines[..n]).value, lines[n];
      if PlanOf(f, q.rows, line).Some? {
        InsertIsSilent(f, line.entity, PlanOf(f, q.rows, line).value, q.rows);
      }
    }
  }

  /** And so enqueues no recomputation: what it changed is not followed by any job. */
  lemma UnwatchedFollowedByNothing(db: Db, ent: Id, source: Id, env: Env)
    requires DataInv(db.rows, db.signals) && SyncedDb(db, ent, source, env.intake, env.now).Some?
    requires forall line :: line in AllLines(env.intake.mappings, env.intake.fetch.records) ==>
                 Watched(line.entity).None?
    ensures var synced := SyncedDb(db, ent, source, env.intake, env.now).value;
            synced.signals == db.signals && synced.jobs == db.jobs
  {
    UnwatchedIsSilent(FeedOf(ent, source, env.intake, env.now), Start(db.rows, db.signals),
                      AllLines(env.intake.mappings, env.intake.fetch.records));
    SyncCovers(db, ent, source, env);
  }
}
