/** How the stages of the pipeline hand over to each other through the queue
    (src/app/integration/sync.py:205-231, src/app/observation/jobs.py:21-34,
    src/app/integration/jobs.py:40-56): no signal without its recomputation, no recomputation
    without its detection, one pending observation per source. */
module Chains {
  import opened Basics
  import opened Tables
  import opened JobQueue
  import opened SyncSpec
  import opened SyncProps
  import opened Aggregates
  import opened AggregateProps
  import opened Detection
  import opened Worker
  import opened Pipeline
  import opened Journal

  // ---- the jobs a handler enqueues --------------------------------------------------------------

  /** The jobs a returning handler appended. */
  function Spawned(db: Db, task: Task, env: Env): (js: seq<Job>)
    requires Effect(db, task, env).Some?
    ensures Effect(db, task, env).value.jobs == db.jobs + js
  {
    EffectAppendsJobs(db, task, env);
    Effect(db, task, env).value.jobs[|db.jobs|..]
  }

  /** A recomputation enqueues one detection, an observation its own next run after at most
      one recomputation, and nothing but detection enqueues explanations. */
  lemma SpawnedTasks(db: Db, task: Task, env: Env)
    requires Effect(db, task, env).Some?
    ensures var js := Spawned(db, task, env);
            && (forall j :: j in js ==> j.status.Pending?)
            && (task.RecomputeAggregates? ==> |js| == 1 && js[0].task == DetectRisks(task.ent))
            && (task.ObserveSource? ==>
                  && 1 <= |js| <= 2 && js[|js| - 1].task == task
                  && (|js| == 2 ==> js[0].task.RecomputeAggregates?))
            && (!task.RecomputeAggregates? && !task.ObserveSource? ==>
                  forall j :: j in js ==> j.task.GenerateExplanation?)
  {
    AppendedPending(db, task, env);
    match task
    case ObserveSource(ent, source) => SyncAppendsJobs(db, ent, source, env);
    case DetectRisks(ent) => DetectedPending(db, ent, env.now);
    case GenerateExplanation(ent, finding) => ExplainingKeepsJobs(db, ent, finding, env);
    case _ =>
  }

  // ---- no orphaned change ------------------------------------------------------------------------

  /** The job recomputes the signal's item and was enqueued when the signal was in the log. */
  predicate Covers(j: Job, s: Signal, k: nat) {
    && j.task.RecomputeAggregates? && j.task.ent == s.ent
    && s.item.Some? && s.item.value in j.task.items
    && j.watermark > k
  }

  ghost predicate Covered(jobs: seq<Job>, s: Signal, k: nat) {
    exists i :: 0 <= i < |jobs| && Covers(jobs[i], s, k)
  }

  /** Every signal names a known item and has a job that recomputes it and was enqueued no
      earlier: pending, running, failed, or done after the signal. */
  ghost predicate CoverInv(rows: seq<Row>, signals: seq<Signal>, jobs: seq<Job>) {
    forall k :: 0 <= k < |signals| ==> ItemKnown(rows, signals[k]) && Covered(jobs, signals[k], k)
  }

  lemma CoveredStays(jobs: seq<Job>, later: seq<Job>, s: Signal, k: nat)
    requires Covered(jobs, s, k) && |jobs| <= |later|
    requires forall i :: 0 <= i < |jobs| ==> later[i].task == jobs[i].task && later[i].watermark == jobs[i].watermark
    ensures Covered(later, s, k)
  {
    var i :| 0 <= i < |jobs| && Covers(jobs[i], s, k);
    assert Covers(later[i], s, k);
  }

  lemma CoverStays(rows: seq<Row>, signals: seq<Signal>, jobs: seq<Job>, later: seq<Job>)
    requires CoverInv(rows, signals, jobs) && |jobs| <= |later|
    requires forall i :: 0 <= i < |jobs| ==> later[i].task == jobs[i].task && later[i].watermark == jobs[i].watermark
    ensures CoverInv(rows, signals, later)
  {
    forall k | 0 <= k < |signals|
      ensures Covered(later, signals[k], k)
    {
      CoveredStays(jobs, later, signals[k], k);
    }
  }

  /** A synchronisation enqueues a recomputation exactly when it logs a signal, and that one
      job covers every signal it logs. */
  lemma SyncCovers(db: Db, ent: Id, source: Id, env: Env)
    requires DataInv(db.rows, db.signals)
    requires SyncedDb(db, ent, source, env.intake, env.now).Some?
    ensures var after := SyncedDb(db, ent, source, env.intake, env.now).value;
            && RowsGrow(db.rows, after.rows) && db.signals <= after.signals
            && (after.signals == db.signals ==> after.jobs == db.jobs)
            && (after.signals != db.signals ==> |after.jobs| == |db.jobs| + 1 && db.jobs <= after.jobs)
            && forall k :: |db.signals| <= k < |after.signals| ==>
                 ItemKnown(after.rows, after.signals[k]) && Covers(after.jobs[|db.jobs|], after.signals[k], k)
  {
    FoldKeepsData(FeedOf(ent, source, env.intake, env.now), Start(db.rows, db.signals),
                  AllLines(env.intake.mappings, env.intake.fetch.records));
  }

  lemma SyncKeepsCover(db: Db, ent: Id, source: Id, env: Env)
    requires DataInv(db.rows, db.signals) && CoverInv(db.rows, db.signals, db.jobs)
    requires SyncedDb(db, ent, source, env.intake, env.now).Some?
    ensures var after := SyncedDb(db, ent, source, env.intake, env.now).value;
            CoverInv(after.rows, after.signals, after.jobs)
  {
    var after := SyncedDb(db, ent, source, env.intake, env.now).value;
    SyncCovers(db, ent, source, env);
    forall k | 0 <= k < |after.signals|
      ensures ItemKnown(after.rows, after.signals[k]) && Covered(after.jobs, after.signals[k], k)
    {
      if k < |db.signals| {
        CoveredStays(db.jobs, after.jobs, db.signals[k], k);
      }
    }
  }

  lemma EffectKeepsCover(db: Db, task: Task, env: Env)
    requires DataInv(db.rows, db.signals) && CoverInv(db.rows, db.signals, db.jobs)
    requires Effect(db, task, env).Some?
    ensures var after := Effect(db, task, env).value;
            CoverInv(after.rows, after.signals, after.jobs)
  {
    var after := Effect(db, task, env).value;
    if task.ObserveSource? {
      SyncKeepsCover(db, task.ent, task.source, env);
      var synced := SyncedDb(db, task.ent, task.source, env.intake, env.now).value;
      CoverStays(synced.rows, synced.signals, synced.jobs, after.jobs);
    } else {
      EffectAppendsJobs(db, task, env);
      CoverStays(db.rows, db.signals, db.jobs, after.jobs);
    }
  }

  lemma RunKeepsCover(db: Db, id: Id, env: Env)
    requires DataInv(db.rows, db.signals) && CoverInv(db.rows, db.signals, db.jobs) && id < |db.jobs|
    ensures var after := Ran(db, id, env);
            CoverInv(after.rows, after.signals, after.jobs)
  {
    match Effect(db, db.jobs[id].task, env)
    case None =>
      CoverStays(db.rows, db.signals, db.jobs, FailedAttempt(db, id, env.now, HANDLER_ERROR).jobs);
    case Some(effect) =>
      EffectAppendsJobs(db, db.jobs[id].task, env);
      EffectKeepsCover(db, db.jobs[id].task, env);
      CoverStays(effect.rows, effect.signals, effect.jobs, Finished(effect, id).jobs);
  }

  /** In every reachable state every committed signal has its recomputation. */
  lemma CoverKept(sys: Sys, step: Step)
    requires DataInv(sys.db.rows, sys.db.signals) && CoverInv(sys.db.rows, sys.db.signals, sys.db.jobs)
    requires Next(sys, step).Some?
    ensures var db := Next(sys, step).value.db;
            CoverInv(db.rows, db.signals, db.jobs)
  {
    if step.RunStep? {
      RunKeepsCover(sys.db, Held(sys, step.worker)[0], step.env);
    } else {
      CoverStays(sys.db.rows, sys.db.signals, sys.db.jobs, Next(sys, step).value.db.jobs);
    }
  }

  /** Some item in the scope of a recomputation has a figure that its column cannot hold. */
  ghost predicate Blocked(rows: seq<Row>, ent: Id, items: set<Id>) {
    exists x :: x in ItemsInScope(rows, ent, items) && Overflows(rows, x)
  }

  /** An attempt at a recomputation raises exactly when its scope holds such an item; then it
      refreshes no item at all and enqueues no detection. */
  lemma RecomputationBlocked(db: Db, id: Id, env: Env)
    requires id < |db.jobs| && db.jobs[id].task.RecomputeAggregates?
    ensures var task := db.jobs[id].task;
            && (Effect(db, task, env).None? <==> Blocked(db.rows, task.ent, task.items))
            && (Blocked(db.rows, task.ent, task.items) ==>
                  Ran(db, id, env) == db.(jobs := db.jobs[id := Retried(db.jobs[id], env.now, HANDLER_ERROR)]))
  {
    var task := db.jobs[id].task;
    RecomputeRaises(db.aggregates, db.rows, task.ent, ItemsInScope(db.rows, task.ent, task.items), env.now);
  }

  /** An attempt at the job that covers a signal: unless its scope is blocked, the job is done,
      the signal's item has the figures of the data as they are then, and the detection that
      looks at them is in the queue. If it is blocked nothing but the job's retry happens. */
  lemma CoveringRunRefreshes(sys: Sys, worker: Id, env: Env, k: nat)
    requires Next(sys, RunStep(worker, env)).Some? && OnePerItem(sys.db.aggregates)
    requires k < |sys.db.signals| && ItemKnown(sys.db.rows, sys.db.signals[k])
    requires Covers(sys.db.jobs[Held(sys, worker)[0]], sys.db.signals[k], k)
    ensures var s, id, db := sys.db.signals[k], Held(sys, worker)[0], Next(sys, RunStep(worker, env)).value.db;
            && db.rows == sys.db.rows
            && if Blocked(sys.db.rows, s.ent, sys.db.jobs[id].task.items)
               then db == sys.db.(jobs := sys.db.jobs[id := Retried(sys.db.jobs[id], env.now, HANDLER_ERROR)])
               else
                 && UpToDate(db.aggregates, db.rows, s.item.value)
                 && db.jobs[id].status.Done?
                 && |db.jobs| == |sys.db.jobs| + 1
                 && db.jobs[|sys.db.jobs|].task == DetectRisks(s.ent) && db.jobs[|sys.db.jobs|].status.Pending?
  {
    var s, id := sys.db.signals[k], Held(sys, worker)[0];
    var items := ItemsInScope(sys.db.rows, s.ent, sys.db.jobs[id].task.items);
    RecomputationBlocked(sys.db, id, env);
    if Recomputed(sys.db.aggregates, sys.db.rows, s.ent, items, env.now).Some? {
      RecomputeEffect(sys.db.aggregates, sys.db.rows, s.ent, items, env.now, s.item.value);
    }
  }

  // ---- counting jobs ------------------------------------------------------------------------------

  function Count(p: Job -> bool, jobs: seq<Job>): nat {
    if jobs == [] then 0 else Count(p, jobs[..|jobs| - 1]) + if p(jobs[|jobs| - 1]) then 1 else 0
  }

  function Bit(b: bool): nat {
    if b then 1 else 0
  }

  lemma {:induction false} CountAppend(p: Job -> bool, jobs: seq<Job>, more: seq<Job>)
    ensures Count(p, jobs + more) == Count(p, jobs) + Count(p, more)
  {
    if more == [] {
      assert jobs + more == jobs;
    } else {
      var n := |more| - 1;
      CountAppend(p, jobs, more[..n]);
      assert (jobs + more)[..|jobs + more| - 1] == jobs + more[..n];
    }
  }

  lemma {:induction false} CountSame(p: Job -> bool, jobs: seq<Job>, later: seq<Job>)
    requires |jobs| == |later| && forall i :: 0 <= i < |jobs| ==> p(later[i]) == p(jobs[i])
    ensures Count(p, later) == Count(p, jobs)
  {
    if jobs != [] {
      CountSame(p, jobs[..|jobs| - 1], later[..|jobs| - 1]);
    }
  }

  lemma {:induction false} CountUpdate(p: Job -> bool, jobs: seq<Job>, id: Id, j: Job)
    requires id < |jobs|
    ensures Count(p, jobs[id := j]) + Bit(p(jobs[id])) == Count(p, jobs) + Bit(p(j))
  {
    var n := |jobs| - 1;
    if id == n {
      assert jobs[id := j][..n] == jobs[..n];
    } else {
      CountUpdate(p, jobs[..n], id, j);
      assert jobs[id := j][..n] == jobs[..n][id := j];
    }
  }

  lemma {:induction false} CountNone(p: Job -> bool, jobs: seq<Job>)
    requires forall i :: 0 <= i < |jobs| ==> !p(jobs[i])
    ensures Count(p, jobs) == 0
  {
    if jobs != [] {
      CountNone(p, jobs[..|jobs| - 1]);
    }
  }

  lemma CountMixed(p: Job -> bool, jobs: seq<Job>, more: seq<Job>, id: Id, j: Job)
    requires id < |jobs|
    ensures Count(p, (jobs + more)[id := j]) + Bit(p(jobs[id])) == Count(p, jobs) + Bit(p(j)) + Count(p, more)
  {
    CountUpdate(p, jobs + more, id, j);
    CountAppend(p, jobs, more);
  }

  function AttemptSpawned(db: Db, id: Id, env: Env): seq<Job>
    requires id < |db.jobs|
  {
    if Effect(db, db.jobs[id].task, env).Some? then Spawned(db, db.jobs[id].task, env) else []
  }

  lemma RanJobs(db: Db, id: Id, env: Env)
    requires id < |db.jobs|
    ensures Ran(db, id, env).jobs == (db.jobs + AttemptSpawned(db, id, env))[id := Ran(db, id, env).jobs[id]]
  {
    RanOnlyJob(db, id, env);
  }

  /** What an attempt does to a count: its own job's contribution, and the appended jobs'. */
  lemma CountRun(p: Job -> bool, db: Db, id: Id, env: Env)
    requires id < |db.jobs|
    ensures Count(p, Ran(db, id, env).jobs) + Bit(p(db.jobs[id])) ==
            Count(p, db.jobs) + Bit(p(Ran(db, id, env).jobs[id])) + Count(p, AttemptSpawned(db, id, env))
  {
    RanJobs(db, id, env);
    CountMixed(p, db.jobs, AttemptSpawned(db, id, env), id, Ran(db, id, env).jobs[id]);
  }

  // ---- every recomputation has its detection -------------------------------------------------------

  function DetectionOf(ent: Id): Job -> bool {
    (j: Job) => j.task == DetectRisks(ent)
  }

  function RecomputedFor(ent: Id): Job -> bool {
    (j: Job) => j.task.RecomputeAggregates? && j.task.ent == ent && j.status.Done?
  }

  /** Detection jobs that exist beyond the completed recomputations. */
  function Balance(ent: Id, jobs: seq<Job>): int {
    Count(DetectionOf(ent), jobs) - Count(RecomputedFor(ent), jobs)
  }

  lemma SpawnedDetections(db: Db, task: Task, env: Env, ent: Id)
    requires Effect(db, task, env).Some?
    ensures Count(DetectionOf(ent), Spawned(db, task, env)) == Bit(task.RecomputeAggregates? && task.ent == ent)
    ensures Count(RecomputedFor(ent), Spawned(db, task, env)) == 0
  {
    var js := Spawned(db, task, env);
    SpawnedTasks(db, task, env);
    CountNone(RecomputedFor(ent), js);
    if task.RecomputeAggregates? {
      assert js == [js[0]];
      assert Count(DetectionOf(ent), [js[0]]) == Bit(js[0].task == DetectRisks(ent));
    } else {
      CountNone(DetectionOf(ent), js);
    }
  }

  lemma BalanceRun(db: Db, id: Id, env: Env, ent: Id)
    requires id < |db.jobs| && db.jobs[id].status.Running?
    ensures Balance(ent, Ran(db, id, env).jobs) == Balance(ent, db.jobs)
  {
    CountRun(DetectionOf(ent), db, id, env);
    CountRun(RecomputedFor(ent), db, id, env);
    RanOnlyJob(db, id, env);
    if Effect(db, db.jobs[id].task, env).Some? {
      SpawnedDetections(db, db.jobs[id].task, env, ent);
    }
  }

  /** A detection job is enqueued exactly when a recomputation of the enterprise completes, in
      the same transaction, and never otherwise; a raised or lost attempt enqueues none. */
  lemma DetectionsMatchRecomputations(sys: Sys, step: Step, ent: Id)
    requires Exclusive(sys) && Next(sys, step).Some?
    ensures Balance(ent, Next(sys, step).value.db.jobs) == Balance(ent, sys.db.jobs)
  {
    match step
    case RunStep(w, env) => BalanceRun(sys.db, Held(sys, w)[0], env, ent);
    case ClaimStep(w, now, busy, limit, ids) =>
      forall i | 0 <= i < |sys.db.jobs|
        ensures i in ids ==> sys.db.jobs[i].status.Pending?
      {
        SelectedIsDue(sys.db.jobs, now, busy, limit, ids, i);
      }
      var later := Next(sys, step).value.db.jobs;
      CountSame(DetectionOf(ent), sys.db.jobs, later);
      CountSame(RecomputedFor(ent), sys.db.jobs, later);
    case SubmitStep(task, runAt) =>
      var job := NewJob(task, runAt, |sys.db.signals|);
      CountAppend(DetectionOf(ent), sys.db.jobs, [job]);
      CountAppend(RecomputedFor(ent), sys.db.jobs, [job]);
      CountNone(DetectionOf(ent), [job]);
      CountNone(RecomputedFor(ent), [job]);
    case _ =>
  }

  /** Over every run the balance is what it was at the start: in a system that started with an
      empty queue there are always exactly as many detections as completed recomputations. */
  lemma {:induction false} DetectionsMatchInEveryRun(sys: Sys, steps: seq<Step>, ent: Id)
    requires Exclusive(sys) && Exec(sys, steps).Some?
    ensures var last := Exec(sys, steps).value;
            && Exclusive(last)
            && Balance(ent, last.db.jobs) == Balance(ent, sys.db.jobs)
            && (sys.db.jobs == [] ==> Count(DetectionOf(ent), last.db.jobs) == Count(RecomputedFor(ent), last.db.jobs))
  {
    if steps != [] {
      var n := |steps| - 1;
      var mid := Exec(sys, steps[..n]).value;
      DetectionsMatchInEveryRun(sys, steps[..n], ent);
      ExclusiveKept(mid, steps[n]);
      DetectionsMatchRecomputations(mid, steps[n], ent);
    }
  }

  // ---- observation reschedules itself ----------------------------------------------------------------

  function ObservationOf(ent: Id, source: Id): Job -> bool {
    (j: Job) => j.task == ObserveSource(ent, source) && Active(j)
  }

  /** An attempt at observing the source cannot return: the source is not the enterprise's, the
      fetch fails, or the database refuses a line of the batch. */
  ghost predicate ObservationFails(db: Db, ent: Id, source: Id, env: Env) {
    || !Owns(db, ent, source)
    || env.intake.fetch.FetchFailed?
    || exists n :: FirstRefused(FeedOf(ent, source, env.intake, env.now), Start(db.rows, db.signals),
                                AllLines(env.intake.mappings, env.intake.fetch.records), n)
  }

  lemma ObservationRaises(db: Db, ent: Id, source: Id, env: Env)
    ensures SyncedDb(db, ent, source, env.intake, env.now).None? <==> ObservationFails(db, ent, source, env)
    ensures Effect(db, ObserveSource(ent, source), env).None? <==> ObservationFails(db, ent, source, env)
  {
    if Owns(db, ent, source) && env.intake.fetch.Fetched? {
      BatchRaises(FeedOf(ent, source, env.intake, env.now), Start(db.rows, db.signals),
                  AllLines(env.intake.mappings, env.intake.fetch.records));
    }
  }

  /** The last job in the queue is the next observation of the source, one interval ahead. */
  predicate Scheduled(db: Db, later: seq<Job>, ent: Id, source: Id, now: int) {
    && |later| > |db.jobs|
    && later[|later| - 1].task == ObserveSource(ent, source) && later[|later| - 1].status.Pending?
    && source < |db.sources| && later[|later| - 1].runAt == now + db.sources[source].interval * SECOND
  }

  /** An attempt at an observation schedules the next one exactly when it does not fail. */
  lemma NextRunScheduled(db: Db, id: Id, env: Env)
    requires id < |db.jobs| && db.jobs[id].task.ObserveSource?
    ensures var ent, source := db.jobs[id].task.ent, db.jobs[id].task.source;
            Scheduled(db, Ran(db, id, env).jobs, ent, source, env.now) <==> !ObservationFails(db, ent, source, env)
  {
    var ent, source := db.jobs[id].task.ent, db.jobs[id].task.source;
    ObservationRaises(db, ent, source, env);
    SyncAppendsJobs(db, ent, source, env);
  }

  /** An attempt at the source's observation that fails when no further one is allowed. */
  ghost predicate EndsObservation(sys: Sys, step: Step, ent: Id, source: Id) {
    step.RunStep? &&
    var ids := Held(sys, step.worker);
    && ids != [] && ids[0] < |sys.db.jobs|
    && var j := sys.db.jobs[ids[0]];
       && j.task == ObserveSource(ent, source)
       && ObservationFails(sys.db, ent, source, step.env)
       && j.attempts + 1 >= j.maxAttempts
  }

  lemma CountObservations(js: seq<Job>, task: Task, ent: Id, source: Id)
    requires forall i :: 0 <= i < |js| - 1 ==> !js[i].task.ObserveSource?
    requires task.ObserveSource? ==> js != [] && js[|js| - 1].task == task && Active(js[|js| - 1])
    requires !task.ObserveSource? ==> js == [] || !js[|js| - 1].task.ObserveSource?
    ensures Count(ObservationOf(ent, source), js) == Bit(task == ObserveSource(ent, source))
  {
    if js != [] {
      CountNone(ObservationOf(ent, source), js[..|js| - 1]);
    }
  }

  lemma SpawnedObservations(db: Db, task: Task, env: Env, ent: Id, source: Id)
    requires Effect(db, task, env).Some?
    ensures Count(ObservationOf(ent, source), Spawned(db, task, env)) == Bit(task == ObserveSource(ent, source))
  {
    var js := Spawned(db, task, env);
    SpawnedTasks(db, task, env);
    assert forall i :: 0 <= i < |js| ==> js[i] in js;
    CountObservations(js, task, ent, source);
  }

  lemma ObservationRun(db: Db, id: Id, env: Env, ent: Id, source: Id)
    requires id < |db.jobs| && db.jobs[id].status.Running?
    ensures var p, j := ObservationOf(ent, source), db.jobs[id];
            Count(p, Ran(db, id, env).jobs)
            + Bit(j.task == ObserveSource(ent, source) && Effect(db, j.task, env).None?
                  && j.attempts + 1 >= j.maxAttempts)
            == Count(p, db.jobs)
  {
    CountRun(ObservationOf(ent, source), db, id, env);
    RanOnlyJob(db, id, env);
    if Effect(db, db.jobs[id].task, env).Some? {
      SpawnedObservations(db, db.jobs[id].task, env, ent, source);
    }
  }

  /** The number of observations of a source that are pending or running changes only when one
      is submitted from outside, or when the last attempt at one fails: a source is never observed
      by a growing number of jobs, and it stops being observed for good exactly when an
      observation fails for good. */
  lemma ObservationsConserved(sys: Sys, step: Step, ent: Id, source: Id)
    requires Exclusive(sys) && Next(sys, step).Some?
    ensures var p := ObservationOf(ent, source);
            Count(p, Next(sys, step).value.db.jobs) ==
            Count(p, sys.db.jobs)
            + Bit(step.SubmitStep? && step.task == ObserveSource(ent, source))
            - Bit(EndsObservation(sys, step, ent, source))
  {
    var p := ObservationOf(ent, source);
    match step
    case RunStep(w, env) =>
      ObservationRun(sys.db, Held(sys, w)[0], env, ent, source);
      ObservationRaises(sys.db, ent, source, env);
    case ClaimStep(w, now, busy, limit, ids) =>
      forall i | 0 <= i < |sys.db.jobs|
        ensures i in ids ==> Active(sys.db.jobs[i])
      {
        SelectedIsDue(sys.db.jobs, now, busy, limit, ids, i);
      }
      CountSame(p, sys.db.jobs, Next(sys, step).value.db.jobs);
    case SubmitStep(task, runAt) =>
      var job := NewJob(task, runAt, |sys.db.signals|);
      CountAppend(p, sys.db.jobs, [job]);
      assert Count(p, [job]) == Bit(p(job));
    case _ =>
  }

  function Submissions(steps: seq<Step>, ent: Id, source: Id): nat {
    if steps == [] then 0
    else
      var last := steps[|steps| - 1];
      Submissions(steps[..|steps| - 1], ent, source) + Bit(last.SubmitStep? && last.task == ObserveSource(ent, source))
  }

  ghost function Endings(sys: Sys, steps: seq<Step>, ent: Id, source: Id): nat {
    if steps == [] then 0
    else
      var mid := Exec(sys, steps[..|steps| - 1]);
      Endings(sys, steps[..|steps| - 1], ent, source)
      + Bit(mid.Some? && EndsObservation(mid.value, steps[|steps| - 1], ent, source))
  }

  /** Over every run: what is observed now is what was observed at first, and was submitted since,
      less what failed for good. */
  lemma {:induction false} ObservationsInEveryRun(sys: Sys, steps: seq<Step>, ent: Id, source: Id)
    requires Exclusive(sys) && Exec(sys, steps).Some?
    ensures var p, last := ObservationOf(ent, source), Exec(sys, steps).value;
            && Exclusive(last)
            && Count(p, last.db.jobs) + Endings(sys, steps, ent, source) ==
               Count(p, sys.db.jobs) + Submissions(steps, ent, source)
  {
    if steps != [] {
      var n := |steps| - 1;
      var mid := Exec(sys, steps[..n]).value;
      ObservationsInEveryRun(sys, steps[..n], ent, source);
      ExclusiveKept(mid, steps[n]);
      ObservationsConserved(mid, steps[n], ent, source);
    }
  }
}
