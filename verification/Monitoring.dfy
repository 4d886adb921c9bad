/** What the recorded gaps and the health of a source say over every run
    (src/app/observation/observability.py, src/app/integration/service.py:195-226,
    src/app/integration/sync.py:146-220, src/app/ai/structured.py:70-87). */
module Monitoring {
  import opened Basics
  import opened Tables
  import opened Gaps
  import opened SyncSpec
  import opened Sync
  import opened Explain
  import opened Worker
  import opened Api
  import opened Pipeline

  lemma EffectKeepsGaps(db: Db, task: Task, env: Env)
    requires OneOpenPerKey(db.gaps) && Effect(db, task, env).Some?
    ensures OneOpenPerKey(Effect(db, task, env).value.gaps)
  {
    match task
    case ObserveSource(ent, source) =>
      OpenCloseEffect(db.gaps, SourceGap(ent, source), SourceGap(ent, source), env.now);
    case GenerateExplanation(ent, finding) => GroundedOrClean(db, ent, finding, env.provider, env.now);
    case _ =>
  }

  lemma GapsKept(sys: Sys, step: Step)
    requires OneOpenPerKey(sys.db.gaps) && Next(sys, step).Some?
    ensures OneOpenPerKey(Next(sys, step).value.db.gaps)
  {
    match step
    case RunStep(w, env) =>
      var task := sys.db.jobs[Held(sys, w)[0]].task;
      if Effect(sys.db, task, env).Some? {
        EffectKeepsGaps(sys.db, task, env);
      }
    case CheckStep(ent, source, _, now) =>
      OpenCloseEffect(sys.db.gaps, SourceGap(ent, source), SourceGap(ent, source), now);
    case SuggestFailStep(ent, _, _, now) =>
      OpenCloseEffect(sys.db.gaps, AiGap(ent, MAPPING_CAPABILITY), AiGap(ent, MAPPING_CAPABILITY), now);
    case _ =>
  }

  // ---- source gaps ---------------------------------------------------------------------------------

  predicate CheckFails(step: Step, ent: Id, source: Id) {
    step.CheckStep? && step.ent == ent && step.source == source && step.result.Failing?
  }

  /** A completed observation of the source, or a passed connection test. */
  predicate Recovers(sys: Sys, step: Step, ent: Id, source: Id) {
    match step
    case CheckStep(e, src, result, _) => e == ent && src == source && result.Passed?
    case RunStep(w, env) =>
      var ids := Held(sys, w);
      && ids != [] && ids[0] < |sys.db.jobs|
      && sys.db.jobs[ids[0]].task == ObserveSource(ent, source)
      && Effect(sys.db, sys.db.jobs[ids[0]].task, env).Some?
    case _ => false
  }

  lemma EffectSourceGap(db: Db, task: Task, env: Env, ent: Id, source: Id)
    requires OneOpenPerKey(db.gaps) && Effect(db, task, env).Some?
    ensures HasOpen(Effect(db, task, env).value.gaps, SourceGap(ent, source)) <==>
              HasOpen(db.gaps, SourceGap(ent, source)) && task != ObserveSource(ent, source)
  {
    match task
    case ObserveSource(e, s) => OpenCloseEffect(db.gaps, SourceGap(e, s), SourceGap(ent, source), env.now);
    case GenerateExplanation(e, _) => OpenCloseEffect(db.gaps, AiGap(e, CAPABILITY), SourceGap(ent, source), env.now);
    case _ =>
  }

  /** A source's gap is open after a step exactly when a connection test just failed, or it
      was open and the source has not just recovered; no job of the worker ever opens it. */
  lemma SourceGapStep(sys: Sys, step: Step, ent: Id, source: Id)
    requires OneOpenPerKey(sys.db.gaps) && Next(sys, step).Some?
    ensures var key := SourceGap(ent, source);
            HasOpen(Next(sys, step).value.db.gaps, key) <==>
              CheckFails(step, ent, source) || (HasOpen(sys.db.gaps, key) && !Recovers(sys, step, ent, source))
  {
    match step
    case RunStep(w, env) =>
      var task := sys.db.jobs[Held(sys, w)[0]].task;
      if Effect(sys.db, task, env).Some? {
        EffectSourceGap(sys.db, task, env, ent, source);
      }
    case CheckStep(e, s, _, now) => OpenCloseEffect(sys.db.gaps, SourceGap(e, s), SourceGap(ent, source), now);
    case SuggestFailStep(e, _, _, now) =>
      OpenCloseEffect(sys.db.gaps, AiGap(e, MAPPING_CAPABILITY), SourceGap(ent, source), now);
    case _ =>
  }

  /** A failed fetch opens the source's gap and marks the source unavailable inside its
      transaction; the worker rolls both back with it, and the next run is not scheduled. */
  lemma FailedFetchLeavesNoTrace(db: Db, id: Id, env: Env)
    requires id < |db.jobs| && db.jobs[id].task.ObserveSource? && env.intake.fetch.FetchFailed?
    requires Owns(db, db.jobs[id].task.ent, db.jobs[id].task.source)
    ensures var ent, source := db.jobs[id].task.ent, db.jobs[id].task.source;
            var opened_ := FailedFetch(db, ent, source, env.intake.fetch.error, env.now);
            && HasOpen(opened_.gaps, SourceGap(ent, source)) && opened_.sources[source].health.Unavailable?
            && Ran(db, id, env) == db.(jobs := Ran(db, id, env).jobs)
            && |Ran(db, id, env).jobs| == |db.jobs|
  {
    var key := SourceGap(db.jobs[id].task.ent, db.jobs[id].task.source);
    var cur := Current(db.gaps, key);
    assert IsOpen(Opened(db.gaps, key, env.now), key, if cur.Some? then cur.value else |db.gaps|);
  }

  // ---- health --------------------------------------------------------------------------------------

  /** A source with an open gap is unavailable, and so is the converse once it was checked. */
  ghost predicate HealthAgrees(db: Db) {
    forall i :: 0 <= i < |db.sources| ==>
      var s, key := db.sources[i], SourceGap(db.sources[i].ent, i);
      && (HasOpen(db.gaps, key) ==> s.health.Unavailable?)
      && (s.health.Unavailable? && s.lastCheckAt.Some? ==> HasOpen(db.gaps, key))
  }

  ghost predicate SourceStep(sys: Sys, step: Step, later: seq<Source>, i: Id)
    requires i < |sys.db.sources|
  {
    var ent := sys.db.sources[i].ent;
    && i < |later| && later[i].ent == ent
    && if CheckFails(step, ent, i) then later[i].health.Unavailable? && later[i].lastCheckAt.Some?
       else if Recovers(sys, step, ent, i) then later[i].health.Available? && later[i].lastCheckAt.Some?
       else later[i] == sys.db.sources[i]
  }

  lemma SourcesStep(sys: Sys, step: Step, i: Id)
    requires Next(sys, step).Some? && i < |sys.db.sources|
    ensures SourceStep(sys, step, Next(sys, step).value.db.sources, i)
    ensures |Next(sys, step).value.db.sources| == |sys.db.sources|
  {
  }

  lemma HealthAgreesKept(sys: Sys, step: Step)
    requires OneOpenPerKey(sys.db.gaps) && HealthAgrees(sys.db) && Next(sys, step).Some?
    ensures HealthAgrees(Next(sys, step).value.db)
  {
    var db := Next(sys, step).value.db;
    forall i | 0 <= i < |db.sources|
      ensures var s, key := db.sources[i], SourceGap(db.sources[i].ent, i);
              && (HasOpen(db.gaps, key) ==> s.health.Unavailable?)
              && (s.health.Unavailable? && s.lastCheckAt.Some? ==> HasOpen(db.gaps, key))
    {
      if |sys.db.sources| > 0 {
        SourcesStep(sys, step, 0);
      }
      SourcesStep(sys, step, i);
      SourceGapStep(sys, step, sys.db.sources[i].ent, i);
    }
  }

  // ---- capability gaps -------------------------------------------------------------------------------

  /** No step closes the gap of an unavailable AI capability, whichever it is, not even the
      capability's recovery. */
  lemma AiGapStays(sys: Sys, step: Step, ent: Id, capability: string)
    requires OneOpenPerKey(sys.db.gaps) && Next(sys, step).Some?
    requires HasOpen(sys.db.gaps, AiGap(ent, capability))
    ensures HasOpen(Next(sys, step).value.db.gaps, AiGap(ent, capability))
  {
    var key := AiGap(ent, capability);
    match step
    case RunStep(w, env) =>
      var task := sys.db.jobs[Held(sys, w)[0]].task;
      match task {
        case ObserveSource(e, s) => OpenCloseEffect(sys.db.gaps, SourceGap(e, s), key, env.now);
        case GenerateExplanation(e, _) => OpenCloseEffect(sys.db.gaps, AiGap(e, CAPABILITY), key, env.now);
        case _ =>
      }
    case CheckStep(e, s, _, now) => OpenCloseEffect(sys.db.gaps, SourceGap(e, s), key, now);
    case SuggestFailStep(e, _, _, now) => OpenCloseEffect(sys.db.gaps, AiGap(e, MAPPING_CAPABILITY), key, now);
    case _ =>
  }

  /** Hence in every run, once open, it is open for ever. */
  lemma {:induction false} AiGapForEver(sys: Sys, steps: seq<Step>, ent: Id, capability: string)
    requires OneOpenPerKey(sys.db.gaps) && Exec(sys, steps).Some?
    requires HasOpen(sys.db.gaps, AiGap(ent, capability))
    ensures var last := Exec(sys, steps).value;
            OneOpenPerKey(last.db.gaps) && HasOpen(last.db.gaps, AiGap(ent, capability))
  {
    if steps != [] {
      var n := |steps| - 1;
      var mid := Exec(sys, steps[..n]).value;
      AiGapForEver(sys, steps[..n], ent, capability);
      GapsKept(mid, steps[n]);
      AiGapStays(mid, steps[n], ent, capability);
    }
  }
}
