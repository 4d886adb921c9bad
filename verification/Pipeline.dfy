/** The whole pipeline as a transition system: any number of workers that claim, run, skip and
    crash in any interleaving, next to the interactive transactions. A transaction is one step. */
module Pipeline {
  import opened Basics
  import opened Folds
  import opened Tables
  import opened JobQueue
  import opened Worker
  import opened Api

  /** The committed tables, and the claimed jobs each worker process still has to run. */
  datatype Sys = Sys(db: Db, held: map<Id, seq<Id>>)

  function Held(sys: Sys, worker: Id): seq<Id> {
    if worker in sys.held then sys.held[worker] else []
  }

  datatype Step =
    | ClaimStep(worker: Id, now: int, busy: set<Id>, limit: nat, ids: seq<Id>)
    | RunStep(worker: Id, env: Env)
    | SkipStep(worker: Id)
    | CrashStep(worker: Id)
    | DismissStep(ent: Id, finding: Id, reason: string, user: Id, now: int)
    | CheckStep(ent: Id, source: Id, result: Connection, now: int)
    | SuggestFailStep(ent: Id, source: Id, error: string, now: int)
    | SubmitStep(task: Task, runAt: int)

  /** Jobs that enter the queue from outside; the other kinds are enqueued by handlers only. */
  predicate Submittable(task: Task) {
    task.ObserveSource? || task.SuggestMapping? || task.Noop? || task.UnknownKind?
  }

  function OnDb(sys: Sys, db: Option<Db>): Option<Sys> {
    if db.Some? then Some(sys.(db := db.value)) else None
  }

  /** The state after a step; None when the step is not possible. A worker claims only after
      its last pass ended, runs or skips its claimed jobs in order, and loses them when it
      crashes; nothing ever takes a job from a worker. */
  function Next(sys: Sys, step: Step): Option<Sys> {
    match step
    case ClaimStep(w, now, busy, limit, ids) =>
      if Held(sys, w) == [] && IsDueSelection(sys.db.jobs, now, busy, limit, ids)
      then Some(Sys(sys.db.(jobs := Claimed(sys.db.jobs, ids, w, now)), sys.held[w := ids]))
      else None
    case RunStep(w, env) =>
      var ids := Held(sys, w);
      if ids != [] && ids[0] < |sys.db.jobs|
      then Some(Sys(Ran(sys.db, ids[0], env), sys.held[w := ids[1..]]))
      else None
    case SkipStep(w) =>
      var ids := Held(sys, w);
      if ids != [] then Some(sys.(held := sys.held[w := ids[1..]])) else None
    case CrashStep(w) => Some(sys.(held := sys.held[w := []]))
    case DismissStep(ent, finding, reason, user, now) =>
      OnDb(sys, DismissedDb(sys.db, ent, finding, reason, user, now))
    case CheckStep(ent, source, result, now) => OnDb(sys, CheckedDb(sys.db, ent, source, result, now))
    case SuggestFailStep(ent, source, error, now) => OnDb(sys, SuggestionFailedDb(sys.db, ent, source, error, now))
    case SubmitStep(task, runAt) =>
      if Submittable(task) then Some(sys.(db := Enqueued(sys.db, task, runAt))) else None
  }

  function Stepper(): (Sys, Step) -> Option<Sys> {
    (sys, step) => Next(sys, step)
  }

  /** The state after a run; None when one of its steps is not possible. */
  function Exec(sys: Sys, steps: seq<Step>): Option<Sys> {
    Fold(Stepper(), sys, steps)
  }

  lemma ExecOne(sys: Sys, steps: seq<Step>, last: Step)
    ensures Exec(sys, steps + [last]) ==
            match Exec(sys, steps) case None => None case Some(mid) => Next(mid, last)
  {
    FoldOne(Stepper(), sys, steps, last);
  }

  // ---- who holds a job ---------------------------------------------------------------------------

  /** A job a worker still has to run is running and locked by it, and listed once: so no job
      is ever held by two workers. */
  ghost predicate HeldOk(held: map<Id, seq<Id>>, jobs: seq<Job>) {
    forall w :: w in held ==>
      && Distinct(held[w])
      && forall k :: 0 <= k < |held[w]| ==>
           && held[w][k] < |jobs|
           && jobs[held[w][k]].status.Running?
           && jobs[held[w][k]].lockedBy == Some(w)
  }

  ghost predicate Exclusive(sys: Sys) {
    HeldOk(sys.held, sys.db.jobs)
  }

  /** Old jobs keep their task; only job `id` may change otherwise. */
  ghost predicate OnlyJob(jobs: seq<Job>, later: seq<Job>, id: Id) {
    && |jobs| <= |later|
    && (forall i :: 0 <= i < |jobs| && i != id ==> later[i] == jobs[i])
    && (id < |jobs| ==> later[id].task == jobs[id].task && later[id].maxAttempts == jobs[id].maxAttempts
                        && later[id].watermark == jobs[id].watermark)
  }

  lemma RanOnlyJob(db: Db, id: Id, env: Env)
    requires id < |db.jobs|
    ensures OnlyJob(db.jobs, Ran(db, id, env).jobs, id)
    ensures Effect(db, db.jobs[id].task, env).None? ==>
              Ran(db, id, env) == db.(jobs := db.jobs[id := Retried(db.jobs[id], env.now, HANDLER_ERROR)])
    ensures Effect(db, db.jobs[id].task, env).Some? ==> Ran(db, id, env).jobs[id] == Finish(db.jobs[id])
  {
    if Effect(db, db.jobs[id].task, env).Some? {
      EffectAppendsJobs(db, db.jobs[id].task, env);
    }
  }

  lemma PopKeepsHeld(held: map<Id, seq<Id>>, jobs: seq<Job>, later: seq<Job>, w: Id)
    requires HeldOk(held, jobs) && w in held && held[w] != []
    requires OnlyJob(jobs, later, held[w][0])
    ensures HeldOk(held[w := held[w][1..]], later)
  {
    var next := held[w := held[w][1..]];
    forall v, k | v in next && 0 <= k < |next[v]|
      ensures next[v][k] != held[w][0] && next[v][k] < |jobs|
      ensures jobs[next[v][k]].status.Running? && jobs[next[v][k]].lockedBy == Some(v)
    {
      if v == w {
        assert next[w][k] == held[w][k + 1];
      } else {
        assert jobs[held[v][k]].lockedBy == Some(v);
      }
    }
  }

  lemma ClaimKeepsHeld(held: map<Id, seq<Id>>, jobs: seq<Job>, ids: seq<Id>, w: Id, now: int, busy: set<Id>, limit: nat)
    requires HeldOk(held, jobs) && IsDueSelection(jobs, now, busy, limit, ids)
    requires w in held ==> held[w] == []
    ensures HeldOk(held[w := ids], Claimed(jobs, ids, w, now))
  {
    var next, later := held[w := ids], Claimed(jobs, ids, w, now);
    forall v, k | v in next && 0 <= k < |next[v]|
      ensures next[v][k] < |later| && later[next[v][k]].status.Running? && later[next[v][k]].lockedBy == Some(v)
    {
      SelectedIsDue(jobs, now, busy, limit, ids, next[v][k]);
    }
  }

  lemma ExclusiveKept(sys: Sys, step: Step)
    requires Exclusive(sys) && Next(sys, step).Some?
    ensures Exclusive(Next(sys, step).value)
  {
    match step
    case ClaimStep(w, now, busy, limit, ids) => ClaimKeepsHeld(sys.held, sys.db.jobs, ids, w, now, busy, limit);
    case RunStep(w, env) =>
      RanOnlyJob(sys.db, Held(sys, w)[0], env);
      PopKeepsHeld(sys.held, sys.db.jobs, Ran(sys.db, Held(sys, w)[0], env).jobs, w);
    case SkipStep(w) => PopKeepsHeld(sys.held, sys.db.jobs, sys.db.jobs, w);
    case _ =>
  }
}
