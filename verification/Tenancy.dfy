/** Enterprises are isolated (src/app/enterprise/models.py:4): nothing that is done for one changes
    what another one has, over every run of the pipeline. */
module Tenancy {
  import opened Basics
  import opened Tables
  import opened SyncProps
  import opened Gaps
  import opened Rules
  import opened Aggregates
  import opened Detection
  import opened RecordProps
  import opened Explain
  import opened SyncSpec
  import opened Worker
  import opened Api
  import opened Pipeline
  import opened Invariant

  // ---- what an enterprise has ------------------------------------------------------------------------

  /** Of the elements that are `other`'s none changed, none was added and none was taken over. */
  ghost predicate Kept<T(!new)>(owner: T -> Id, before: seq<T>, after: seq<T>, other: Id) {
    && |before| <= |after|
    && (forall i :: 0 <= i < |before| && owner(before[i]) == other ==> after[i] == before[i])
    && (forall i :: 0 <= i < |after| && owner(after[i]) == other ==> i < |before| && after[i] == before[i])
  }

  lemma KeptOn<T(!new)>(owner: T -> Id, a: seq<T>, b: seq<T>, c: seq<T>, other: Id)
    requires Kept(owner, a, b, other) && Kept(owner, b, c, other)
    ensures Kept(owner, a, c, other)
  {
  }

  lemma KeptSame<T(!new)>(owner: T -> Id, xs: seq<T>, other: Id)
    ensures Kept(owner, xs, xs, other)
  {
  }

  lemma KeptMore<T(!new)>(owner: T -> Id, xs: seq<T>, x: T, other: Id)
    requires owner(x) != other
    ensures Kept(owner, xs, xs + [x], other)
  {
  }

  lemma KeptUpdate<T(!new)>(owner: T -> Id, xs: seq<T>, i: nat, x: T, other: Id)
    requires i < |xs| && owner(xs[i]) != other && owner(x) != other
    ensures Kept(owner, xs, xs[i := x], other)
  {
  }

  function OfSource(s: Source): Id { s.ent }

  function OfRow(r: Row): Id { r.ent }

  function OfSignal(s: Signal): Id { s.ent }

  function OfAggregate(a: Aggregate): Id { a.ent }

  function OfFinding(f: Finding): Id { f.ent }

  function OfExplanation(e: Explanation): Id { e.ent }

  function OfGap(g: Gap): Id { g.key.ent }

  function OfAudit(a: Audit): Id { a.ent }

  /** Everything the enterprise has, beside jobs, is as it was. */
  ghost predicate Untouched(db: Db, after: Db, other: Id) {
    && Kept(OfSource, db.sources, after.sources, other)
    && Kept(OfRow, db.rows, after.rows, other)
    && Kept(OfSignal, db.signals, after.signals, other)
    && Kept(OfAggregate, db.aggregates, after.aggregates, other)
    && Kept(OfFinding, db.findings, after.findings, other)
    && Kept(OfExplanation, db.explanations, after.explanations, other)
    && Kept(OfGap, db.gaps, after.gaps, other)
    && Kept(OfAudit, db.audits, after.audits, other)
  }

  lemma UntouchedOn(a: Db, b: Db, c: Db, other: Id)
    requires Untouched(a, b, other) && Untouched(b, c, other)
    ensures Untouched(a, c, other)
  {
    KeptOn(OfSource, a.sources, b.sources, c.sources, other);
    KeptOn(OfRow, a.rows, b.rows, c.rows, other);
    KeptOn(OfSignal, a.signals, b.signals, c.signals, other);
    KeptOn(OfAggregate, a.aggregates, b.aggregates, c.aggregates, other);
    KeptOn(OfFinding, a.findings, b.findings, c.findings, other);
    KeptOn(OfExplanation, a.explanations, b.explanations, c.explanations, other);
    KeptOn(OfGap, a.gaps, b.gaps, c.gaps, other);
    KeptOn(OfAudit, a.audits, b.audits, c.audits, other);
  }

  /** Every aggregate is of the enterprise that its item is of. */
  ghost predicate AggregatesOwned(aggs: seq<Aggregate>, rows: seq<Row>) {
    forall i :: 0 <= i < |aggs| ==> aggs[i].item < |rows| && rows[aggs[i].item].ent == aggs[i].ent
  }

  // ---- the handlers ----------------------------------------------------------------------------------

  lemma ClosedKept(gaps: seq<Gap>, key: GapKey, now: int, other: Id)
    requires key.ent != other
    ensures Kept(OfGap, gaps, Closed(gaps, key, now), other)
    ensures Kept(OfGap, gaps, Opened(gaps, key, now), other)
  {
  }

  lemma SyncIsolates(db: Db, ent: Id, source: Id, env: Env, other: Id)
    requires DataInv(db.rows, db.signals) && ent != other
    requires Effect(db, ObserveSource(ent, source), env).Some?
    ensures Untouched(db, Effect(db, ObserveSource(ent, source), env).value, other)
  {
    var after := Effect(db, ObserveSource(ent, source), env).value;
    SyncLeaves(db, ent, source, env.intake, env.now);
    SyncStamps(db, ent, source, env.intake, env.now);
    SyncKeepsData(db, ent, source, env);
    RowsKept(db.rows, after.rows, ent, other);
    ClosedKept(db.gaps, GapKey(ent, SourceScope, SourceRow(source), SourceUnavailable), env.now, other);
  }

  lemma RowsKept(rows: seq<Row>, later: seq<Row>, ent: Id, other: Id)
    requires RowsGrow(rows, later) && ent != other
    requires forall i: Id :: i < |later| ==> (i < |rows| && later[i] == rows[i]) || later[i].ent == ent
    ensures Kept(OfRow, rows, later, other)
  {
  }

  /** The tables a recomputation or a detection does not write. */
  lemma SameTables(db: Db, after: Db, other: Id)
    requires after == db.(aggregates := after.aggregates, findings := after.findings, links := after.links,
                          jobs := after.jobs)
    requires Kept(OfAggregate, db.aggregates, after.aggregates, other)
    requires Kept(OfFinding, db.findings, after.findings, other)
    ensures Untouched(db, after, other)
  {
  }

  lemma PutIsolates(aggs: seq<Aggregate>, rows: seq<Row>, ent: Id, item: Id, figures: Figures, now: int, other: Id)
    requires AggregatesOwned(aggs, rows) && item < |rows| && rows[item].ent == ent && ent != other
    ensures var put := PutAggregate(aggs, ent, item, figures, now);
            AggregatesOwned(put, rows) && Kept(OfAggregate, aggs, put, other)
  {
  }

  lemma OneIsolates(aggs: seq<Aggregate>, rows: seq<Row>, ent: Id, item: Id, now: int, other: Id)
    requires AggregatesOwned(aggs, rows) && item < |rows| && rows[item].ent == ent && ent != other
    requires RecomputedOne(aggs, rows, ent, item, now).Some?
    ensures var after := RecomputedOne(aggs, rows, ent, item, now).value;
            AggregatesOwned(after, rows) && Kept(OfAggregate, aggs, after, other)
  {
    if FiguresOf(rows, item).Some? {
      PutIsolates(aggs, rows, ent, item, FiguresOf(rows, item).value, now, other);
    } else {
      KeptSame(OfAggregate, aggs, other);
    }
  }

  lemma LastRecomputed(aggs: seq<Aggregate>, rows: seq<Row>, ent: Id, items: seq<Id>, now: int)
    requires items != [] && Recomputed(aggs, rows, ent, items, now).Some?
    ensures var before := Recomputed(aggs, rows, ent, items[..|items| - 1], now);
            before.Some? && Recomputed(aggs, rows, ent, items, now) ==
                            RecomputedOne(before.value, rows, ent, items[|items| - 1], now)
  {
  }

  lemma OneMoreIsolates(aggs: seq<Aggregate>, mid: seq<Aggregate>, rows: seq<Row>, ent: Id, item: Id, now: int,
                        other: Id)
    requires AggregatesOwned(mid, rows) && Kept(OfAggregate, aggs, mid, other)
    requires item < |rows| && rows[item].ent == ent && ent != other
    requires RecomputedOne(mid, rows, ent, item, now).Some?
    ensures var after := RecomputedOne(mid, rows, ent, item, now).value;
            AggregatesOwned(after, rows) && Kept(OfAggregate, aggs, after, other)
  {
    OneIsolates(mid, rows, ent, item, now, other);
    KeptOn(OfAggregate, aggs, mid, RecomputedOne(mid, rows, ent, item, now).value, other);
  }

  ghost predicate AllOf(rows: seq<Row>, ent: Id, items: seq<Id>) {
    forall k :: 0 <= k < |items| ==> items[k] < |rows| && rows[items[k]].ent == ent
  }

  lemma ScopeIsOwn(rows: seq<Row>, ent: Id, scope: set<Id>)
    ensures AllOf(rows, ent, ItemsInScope(rows, ent, scope))
  {
    var ids := ItemsInScope(rows, ent, scope);
    assert forall k :: 0 <= k < |ids| ==> ids[k] in ids;
  }

  lemma {:induction false} RecomputeIsolates(aggs: seq<Aggregate>, rows: seq<Row>, ent: Id, items: seq<Id>, now: int,
                                             other: Id)
    requires AggregatesOwned(aggs, rows) && ent != other && Recomputed(aggs, rows, ent, items, now).Some?
    requires AllOf(rows, ent, items)
    ensures var after := Recomputed(aggs, rows, ent, items, now).value;
            AggregatesOwned(after, rows) && Kept(OfAggregate, aggs, after, other)
  {
    if items != [] {
      var n := |items| - 1;
      LastRecomputed(aggs, rows, ent, items, now);
      RecomputeIsolates(aggs, rows, ent, items[..n], now, other);
      OneMoreIsolates(aggs, Recomputed(aggs, rows, ent, items[..n], now).value, rows, ent, items[n], now, other);
    }
  }

  lemma {:induction false} DetectionIsolates(b: Book, signals: seq<Signal>, ent: Id, now: int, cs: seq<Candidate>,
                                             other: Id)
    requires ent != other
    ensures Kept(OfFinding, b.findings, AppliedAll(b, signals, ent, now, cs).book.findings, other)
  {
    if cs != [] {
      var n := |cs| - 1;
      var mid := AppliedAll(b, signals, ent, now, cs[..n]).book.findings;
      DetectionIsolates(b, signals, ent, now, cs[..n], other);
      KeptOn(OfFinding, b.findings, mid, AppliedAll(b, signals, ent, now, cs).book.findings, other);
    }
  }

  lemma StatusIsolates(db: Db, id: Id, status: AiStatus, other: Id)
    requires id < |db.findings| && db.findings[id].ent != other
    ensures Untouched(db, WithAiStatus(db, id, status), other)
  {
  }

  lemma FailSafeIsolates(db: Db, ent: Id, capability: string, error: string, now: int, other: Id)
    requires ent != other
    ensures Untouched(db, FailSafe(db, ent, capability, error, now), other)
  {
    ClosedKept(db.gaps, AiGap(ent, capability), now, other);
  }

  lemma ExplanationIsolates(db: Db, x: Explanation, other: Id)
    requires x.ent != other
    ensures Untouched(db, db.(explanations := db.explanations + [x]), other)
  {
  }

  lemma ExplainingIsolates(db: Db, ent: Id, id: Id, provider: Provider, now: int, other: Id)
    requires Known(db, ent, id) && ent != other
    ensures Untouched(db, ExplainedDb(db, ent, id, provider, now), other)
  {
    var after := ExplainedDb(db, ent, id, provider, now);
    if after.explanations == db.explanations {
      var error := after.audits[|db.audits|].event.error;
      var failed := FailSafe(db, ent, CAPABILITY, error, now);
      FailSafeIsolates(db, ent, CAPABILITY, error, now, other);
      StatusIsolates(failed, id, AiDown, other);
      UntouchedOn(db, failed, after, other);
    } else {
      var explained := db.(explanations := after.explanations);
      ExplanationIsolates(db, after.explanations[|db.explanations|], other);
      StatusIsolates(explained, id, AiReady, other);
      UntouchedOn(db, explained, after, other);
    }
  }

  /** The enterprise a task is for; the other kinds are for none. */
  function Owner(task: Task): Option<Id> {
    match task
    case ObserveSource(ent, _) => Some(ent)
    case RecomputeAggregates(ent, _) => Some(ent)
    case DetectRisks(ent) => Some(ent)
    case GenerateExplanation(ent, _) => Some(ent)
    case SuggestMapping(ent, _) => Some(ent)
    case Noop => None
    case UnknownKind(_) => None
  }

  lemma SameIsUntouched(db: Db, after: Db, other: Id)
    requires after == db.(jobs := after.jobs)
    ensures Untouched(db, after, other)
  {
  }

  lemma EffectIsolates(db: Db, task: Task, env: Env, other: Id)
    requires DataInv(db.rows, db.signals) && AggregatesOwned(db.aggregates, db.rows)
    requires Effect(db, task, env).Some? && Owner(task) != Some(other)
    ensures Untouched(db, Effect(db, task, env).value, other)
  {
    var after := Effect(db, task, env).value;
    match task
    case ObserveSource(ent, source) => SyncIsolates(db, ent, source, env, other);
    case RecomputeAggregates(ent, items) =>
      ScopeIsOwn(db.rows, ent, items);
      RecomputeIsolates(db.aggregates, db.rows, ent, ItemsInScope(db.rows, ent, items), env.now, other);
      KeptSame(OfFinding, db.findings, other);
      SameTables(db, after, other);
    case DetectRisks(ent) =>
      DetectionIsolates(BookOf(db), db.signals, ent, env.now, Candidates(db.rows, db.aggregates, ent, env.now), other);
      KeptSame(OfAggregate, db.aggregates, other);
      SameTables(db, after, other);
    case GenerateExplanation(ent, id) => ExplainingIsolates(db, ent, id, env.provider, env.now, other);
    case _ => SameIsUntouched(db, after, other);
  }

  lemma EffectKeepsOwned(db: Db, task: Task, env: Env)
    requires DataInv(db.rows, db.signals) && AggregatesOwned(db.aggregates, db.rows)
    requires Effect(db, task, env).Some?
    ensures AggregatesOwned(Effect(db, task, env).value.aggregates, Effect(db, task, env).value.rows)
  {
    EffectKeepsData(db, task, env);
    if task.RecomputeAggregates? {
      ScopeIsOwn(db.rows, task.ent, task.items);
      RecomputeIsolates(db.aggregates, db.rows, task.ent, ItemsInScope(db.rows, task.ent, task.items), env.now,
                        task.ent + 1);
    }
  }

  // ---- every step, every run -----------------------------------------------------------------------------

  /** The enterprise a step acts for: that of the job it attempts, or that of the user. */
  function ActsFor(sys: Sys, step: Step): Option<Id> {
    match step
    case RunStep(w, _) =>
      var ids := Held(sys, w);
      if ids != [] && ids[0] < |sys.db.jobs| then Owner(sys.db.jobs[ids[0]].task) else None
    case DismissStep(ent, _, _, _, _) => Some(ent)
    case CheckStep(ent, _, _, _) => Some(ent)
    case SuggestFailStep(ent, _, _, _) => Some(ent)
    case _ => None
  }

  lemma RunIsolates(db: Db, id: Id, env: Env, other: Id)
    requires DataInv(db.rows, db.signals) && AggregatesOwned(db.aggregates, db.rows)
    requires id < |db.jobs| && Owner(db.jobs[id].task) != Some(other)
    ensures Untouched(db, Ran(db, id, env), other)
  {
    match Effect(db, db.jobs[id].task, env)
    case None => SameIsUntouched(db, Ran(db, id, env), other);
    case Some(after) =>
      EffectIsolates(db, db.jobs[id].task, env, other);
      SameIsUntouched(after, Ran(db, id, env), other);
      UntouchedOn(db, after, Ran(db, id, env), other);
  }

  lemma RunKeepsOwned(db: Db, id: Id, env: Env)
    requires DataInv(db.rows, db.signals) && AggregatesOwned(db.aggregates, db.rows) && id < |db.jobs|
    ensures AggregatesOwned(Ran(db, id, env).aggregates, Ran(db, id, env).rows)
  {
    if Effect(db, db.jobs[id].task, env).Some? {
      EffectKeepsOwned(db, db.jobs[id].task, env);
    }
  }

  lemma InteractiveIsolates(sys: Sys, step: Step, other: Id)
    requires Next(sys, step).Some? && ActsFor(sys, step) != Some(other)
    requires step.DismissStep? || step.CheckStep? || step.SuggestFailStep?
    ensures Untouched(sys.db, Next(sys, step).value.db, other)
  {
    match step
    case CheckStep(ent, source, _, now) => ClosedKept(sys.db.gaps, SourceGap(ent, source), now, other);
    case SuggestFailStep(ent, _, _, now) => ClosedKept(sys.db.gaps, AiGap(ent, MAPPING_CAPABILITY), now, other);
    case _ =>
  }

  /** A step that does not act for an enterprise leaves everything it has as it was. */
  lemma StepIsolates(sys: Sys, step: Step, other: Id)
    requires SysInv(sys) && AggregatesOwned(sys.db.aggregates, sys.db.rows) && Next(sys, step).Some?
    ensures var db := Next(sys, step).value.db;
            && AggregatesOwned(db.aggregates, db.rows)
            && (ActsFor(sys, step) != Some(other) ==> Untouched(sys.db, db, other))
  {
    match step
    case RunStep(w, env) =>
      RunKeepsOwned(sys.db, Held(sys, w)[0], env);
      if ActsFor(sys, step) != Some(other) {
        RunIsolates(sys.db, Held(sys, w)[0], env, other);
      }
    case ClaimStep(_, _, _, _, _) => SameIsUntouched(sys.db, Next(sys, step).value.db, other);
    case SubmitStep(_, _) => SameIsUntouched(sys.db, Next(sys, step).value.db, other);
    case SkipStep(_) => SameIsUntouched(sys.db, sys.db, other);
    case CrashStep(_) => SameIsUntouched(sys.db, sys.db, other);
    case _ =>
      if ActsFor(sys, step) != Some(other) {
        InteractiveIsolates(sys, step, other);
      }
  }

  /** No step of the run acts for the enterprise. */
  ghost predicate Uninvolved(sys: Sys, steps: seq<Step>, other: Id) {
    forall n :: 0 <= n < |steps| && Exec(sys, steps[..n]).Some? ==>
      ActsFor(Exec(sys, steps[..n]).value, steps[n]) != Some(other)
  }

  lemma UninvolvedBefore(sys: Sys, steps: seq<Step>, last: Step, other: Id)
    requires Exec(sys, steps).Some? && Uninvolved(sys, steps + [last], other)
    ensures Uninvolved(sys, steps, other) && ActsFor(Exec(sys, steps).value, last) != Some(other)
  {
    var more := steps + [last];
    assert more[..|steps|] == steps && more[|steps|] == last;
    assert forall n :: 0 <= n < |steps| ==> more[..n] == steps[..n] && more[n] == steps[n];
  }

  ghost predicate Sound(sys: Sys) {
    SysInv(sys) && AggregatesOwned(sys.db.aggregates, sys.db.rows)
  }

  lemma OneStepMore(sys: Sys, mid: Sys, last: Step, other: Id)
    requires Sound(mid) && Next(mid, last).Some?
    requires Untouched(sys.db, mid.db, other) && ActsFor(mid, last) != Some(other)
    ensures Untouched(sys.db, Next(mid, last).value.db, other)
  {
    StepIsolates(mid, last, other);
    UntouchedOn(sys.db, mid.db, Next(mid, last).value.db, other);
  }

  lemma SoundKept(sys: Sys, step: Step)
    requires Sound(sys) && Next(sys, step).Some?
    ensures Sound(Next(sys, step).value)
  {
    SysInvKept(sys, step);
    StepIsolates(sys, step, 0);
  }

  /** Over every run that does nothing for an enterprise, its sources, rows, signals, aggregates,
      findings, explanations, gaps and audit records stay exactly what they were, and it gets no
      others, whatever the other enterprises' jobs and users do. */
  lemma {:induction false} EnterprisesAreIsolated(sys: Sys, steps: seq<Step>, other: Id)
    requires Sound(sys) && Exec(sys, steps).Some?
    ensures Sound(Exec(sys, steps).value)
    ensures Uninvolved(sys, steps, other) ==> Untouched(sys.db, Exec(sys, steps).value.db, other)
  {
    if steps == [] {
      SameIsUntouched(sys.db, sys.db, other);
    } else {
      var before, last := steps[..|steps| - 1], steps[|steps| - 1];
      assert steps == before + [last];
      ExecOne(sys, before, last);
      EnterprisesAreIsolated(sys, before, other);
      SoundKept(Exec(sys, before).value, last);
      if Uninvolved(sys, before + [last], other) {
        UninvolvedBefore(sys, before, last, other);
        OneStepMore(sys, Exec(sys, before).value, last, other);
      }
    }
  }
}
