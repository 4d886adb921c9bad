/** The life of a job over every run (src/app/jobs/queue.py:50-89, src/app/worker.py:44-80). */
module Lifetimes {
  import opened Basics
  import opened Tables
  import opened JobQueue
  import opened SyncSpec
  import opened Worker
  import opened Detection
  import opened Rules
  import opened Pipeline

  /** Locked exactly while running; an attempt is always left unless the job has failed. */
  ghost predicate JobOk(j: Job) {
    && (j.lockedBy.Some? <==> j.status.Running?)
    && (j.maxAttempts >= 1 ==> if j.status.Failed? then j.attempts == j.maxAttempts else j.attempts < j.maxAttempts)
  }

  ghost predicate JobsOk(jobs: seq<Job>) {
    forall i :: 0 <= i < |jobs| ==> JobOk(jobs[i])
  }

  lemma RequestedAllOk(b: Book, signals: seq<Signal>, ent: Id, now: int, cs: seq<Candidate>)
    requires JobsOk(b.jobs)
    ensures JobsOk(AppliedAll(b, signals, ent, now, cs).book.jobs)
  {
    if cs != [] {
      RequestedAllOk(b, signals, ent, now, cs[..|cs| - 1]);
    }
  }

  lemma EffectJobsOk(db: Db, task: Task, env: Env)
    requires JobsOk(db.jobs) && Effect(db, task, env).Some?
    ensures JobsOk(Effect(db, task, env).value.jobs)
  {
    match task
    case ObserveSource(ent, source) => SyncJobsOk(db, ent, source, env);
    case DetectRisks(ent) =>
      RequestedAllOk(BookOf(db), db.signals, ent, env.now, Candidates(db.rows, db.aggregates, ent, env.now));
    case GenerateExplanation(ent, finding) => ExplainingKeepsJobs(db, ent, finding, env);
    case _ =>
  }

  lemma SyncJobsOk(db: Db, ent: Id, source: Id, env: Env)
    requires JobsOk(db.jobs)
    ensures var synced := SyncedDb(db, ent, source, env.intake, env.now);
            synced.Some? ==> JobsOk(synced.value.jobs)
  {
  }

  lemma EndedJobOk(jobs: seq<Job>, id: Id, now: int, error: string)
    requires JobsOk(jobs) && id < |jobs| && jobs[id].status.Running?
    ensures JobsOk(jobs[id := Finish(jobs[id])]) && JobsOk(jobs[id := Retried(jobs[id], now, error)])
  {
  }

  lemma RanJobsOk(db: Db, id: Id, env: Env)
    requires JobsOk(db.jobs) && id < |db.jobs| && db.jobs[id].status.Running?
    ensures JobsOk(Ran(db, id, env).jobs)
  {
    match Effect(db, db.jobs[id].task, env)
    case None => EndedJobOk(db.jobs, id, env.now, HANDLER_ERROR);
    case Some(effect) =>
      EffectAppendsJobs(db, db.jobs[id].task, env);
      EffectJobsOk(db, db.jobs[id].task, env);
      EndedJobOk(effect.jobs, id, env.now, HANDLER_ERROR);
  }

  lemma JobsOkKept(sys: Sys, step: Step)
    requires Exclusive(sys) && JobsOk(sys.db.jobs) && Next(sys, step).Some?
    ensures JobsOk(Next(sys, step).value.db.jobs)
  {
    match step
    case RunStep(w, env) => RanJobsOk(sys.db, Held(sys, w)[0], env);
    case _ =>
  }

  // ---- how often a job is claimed -----------------------------------------------------------------

  predicate Claims(step: Step, id: Id) {
    step.ClaimStep? && id in step.ids
  }

  function ClaimCount(steps: seq<Step>, id: Id): nat {
    if steps == [] then 0
    else ClaimCount(steps[..|steps| - 1], id) + if Claims(steps[|steps| - 1], id) then 1 else 0
  }

  /** Claims a job has used up: its failed attempts, and the one in progress or completed. */
  function Turns(j: Job): nat {
    j.attempts + if j.status.Running? || j.status.Done? then 1 else 0
  }

  lemma TurnsStep(sys: Sys, step: Step, id: Id)
    requires Exclusive(sys) && Next(sys, step).Some? && id < |sys.db.jobs|
    ensures id < |Next(sys, step).value.db.jobs|
    ensures Turns(Next(sys, step).value.db.jobs[id]) == Turns(sys.db.jobs[id]) + if Claims(step, id) then 1 else 0
    ensures Next(sys, step).value.db.jobs[id].maxAttempts == sys.db.jobs[id].maxAttempts
  {
    match step
    case RunStep(w, env) => RanOnlyJob(sys.db, Held(sys, w)[0], env);
    case ClaimStep(w, now, busy, limit, ids) => SelectedIsDue(sys.db.jobs, now, busy, limit, ids, id);
    case _ =>
  }

  /** Over any run, the number of claims of a job is the number of turns it used; so a job
      with at least one attempt is never claimed more often than its attempts allow. */
  lemma {:induction false} ClaimsBounded(sys: Sys, steps: seq<Step>, id: Id)
    requires Exclusive(sys) && JobsOk(sys.db.jobs) && id < |sys.db.jobs| && Exec(sys, steps).Some?
    ensures var last := Exec(sys, steps).value;
            && Exclusive(last) && JobsOk(last.db.jobs) && id < |last.db.jobs|
            && Turns(last.db.jobs[id]) == Turns(sys.db.jobs[id]) + ClaimCount(steps, id)
            && last.db.jobs[id].maxAttempts == sys.db.jobs[id].maxAttempts
            && (sys.db.jobs[id].maxAttempts >= 1 ==> ClaimCount(steps, id) <= sys.db.jobs[id].maxAttempts)
  {
    if steps != [] {
      var n := |steps| - 1;
      var mid := Exec(sys, steps[..n]).value;
      ClaimsBounded(sys, steps[..n], id);
      ExclusiveKept(mid, steps[n]);
      JobsOkKept(mid, steps[n]);
      TurnsStep(mid, steps[n], id);
    }
  }

  // ---- terminal states and progress --------------------------------------------------------------------

  predicate Ended(j: Job) {
    j.status.Done? || j.status.Failed?
  }

  /** A finished job never changes again. */
  lemma EndedForEver(sys: Sys, step: Step, id: Id)
    requires Exclusive(sys) && Next(sys, step).Some? && id < |sys.db.jobs| && Ended(sys.db.jobs[id])
    ensures id < |Next(sys, step).value.db.jobs| && Next(sys, step).value.db.jobs[id] == sys.db.jobs[id]
  {
    match step
    case RunStep(w, env) => RanOnlyJob(sys.db, Held(sys, w)[0], env);
    case ClaimStep(w, now, busy, limit, ids) => SelectedIsDue(sys.db.jobs, now, busy, limit, ids, id);
    case _ =>
  }

  /** Nor in any run. */
  lemma {:induction false} EndedInEveryRun(sys: Sys, steps: seq<Step>, id: Id)
    requires Exclusive(sys) && Exec(sys, steps).Some? && id < |sys.db.jobs| && Ended(sys.db.jobs[id])
    ensures var last := Exec(sys, steps).value;
            Exclusive(last) && id < |last.db.jobs| && last.db.jobs[id] == sys.db.jobs[id]
  {
    if steps != [] {
      var n := |steps| - 1;
      var mid := Exec(sys, steps[..n]).value;
      EndedInEveryRun(sys, steps[..n], id);
      ExclusiveKept(mid, steps[n]);
      EndedForEver(mid, steps[n], id);
    }
  }

  function Remaining(j: Job): nat {
    if Ended(j) || j.attempts >= j.maxAttempts then 0
    else 2 * (j.maxAttempts - j.attempts) + if j.status.Pending? then 1 else 0
  }

  function TotalRemaining(jobs: seq<Job>): nat {
    if jobs == [] then 0 else TotalRemaining(jobs[..|jobs| - 1]) + Remaining(jobs[|jobs| - 1])
  }

  lemma {:induction false} TotalDrops(jobs: seq<Job>, later: seq<Job>, id: Id)
    requires |later| == |jobs| && id < |jobs|
    requires forall i :: 0 <= i < |jobs| ==> Remaining(later[i]) <= Remaining(jobs[i])
    requires Remaining(later[id]) < Remaining(jobs[id])
    ensures TotalRemaining(later) < TotalRemaining(jobs)
  {
    var n := |jobs| - 1;
    if id == n {
      TotalNotAbove(jobs[..n], later[..n]);
    } else {
      TotalDrops(jobs[..n], later[..n], id);
    }
  }

  lemma {:induction false} TotalNotAbove(jobs: seq<Job>, later: seq<Job>)
    requires |later| == |jobs|
    requires forall i :: 0 <= i < |jobs| ==> Remaining(later[i]) <= Remaining(jobs[i])
    ensures TotalRemaining(later) <= TotalRemaining(jobs)
  {
    if jobs != [] {
      TotalNotAbove(jobs[..|jobs| - 1], later[..|jobs| - 1]);
    }
  }

  /** Every claim of some job and every attempt, successful or not, strictly lowers what
      remains of the jobs that were there; only newly enqueued jobs can raise it. */
  lemma WorkProgresses(sys: Sys, step: Step)
    requires Exclusive(sys) && JobsOk(sys.db.jobs) && Next(sys, step).Some?
    requires forall i :: 0 <= i < |sys.db.jobs| ==> sys.db.jobs[i].maxAttempts >= 1
    requires (step.ClaimStep? && step.ids != []) || step.RunStep?
    ensures var later := Next(sys, step).value.db.jobs;
            |sys.db.jobs| <= |later| && TotalRemaining(later[..|sys.db.jobs|]) < TotalRemaining(sys.db.jobs)
  {
    var jobs, later := sys.db.jobs, Next(sys, step).value.db.jobs;
    match step
    case RunStep(w, env) =>
      var id := Held(sys, w)[0];
      RanOnlyJob(sys.db, id, env);
      TotalDrops(jobs, later[..|jobs|], id);
    case ClaimStep(w, now, busy, limit, ids) =>
      forall k | 0 <= k < |ids|
        ensures jobs[ids[k]].status.Pending?
      {
        assert Due(jobs, now, busy, ids[k]);
      }
      TotalDrops(jobs, later[..|jobs|], ids[0]);
  }
}
