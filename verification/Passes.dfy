/** The worker's pass (src/app/worker.py:64-80) as a run of the pipeline, and what becomes of
    the jobs a restricted or crashed worker leaves behind. */
module Passes {
  import opened Basics
  import opened Folds
  import opened Tables
  import opened JobQueue
  import opened Detection
  import opened Worker
  import opened Pipeline
  import opened ExplainOnce
  import opened Invariant

  // ---- a pass is a run -----------------------------------------------------------------------------

  predicate IsWanted(jobs: seq<Job>, id: Id, kind: Option<Kind>) {
    id < |jobs| && (kind.None? || KindOf(jobs[id].task) == kind.value)
  }

  /** The job is of the kind that its worker is restricted to. */
  predicate OfKind(task: Task, kind: Kind) {
    match kind
    case Observe => task.ObserveSource?
    case Recompute => task.RecomputeAggregates?
    case Detect => task.DetectRisks?
    case Explaining => task.GenerateExplanation?
    case Suggest => task.SuggestMapping?
    case Idle => task.Noop?
    case Other(name) => task == UnknownKind(name)
  }

  /** A pass attempts exactly the claimed jobs of the wanted kind, each as often as it was claimed. */
  lemma {:induction false} WantedMeans(jobs: seq<Job>, ids: seq<Id>, kind: Option<Kind>, id: Id)
    ensures multiset(Wanted(jobs, ids, kind))[id] ==
            if id < |jobs| && (kind.None? || OfKind(jobs[id].task, kind.value)) then multiset(ids)[id] else 0
  {
    if ids != [] {
      var n := |ids| - 1;
      assert ids == ids[..n] + [ids[n]];
      WantedMeans(jobs, ids[..n], kind, id);
    }
  }

  /** Running a claimed job of the wanted kind, or skipping another one. */
  function AttemptStep(worker: Id, jobs: seq<Job>, id: Id, kind: Option<Kind>, envs: Id -> Env): Step {
    if IsWanted(jobs, id, kind) then RunStep(worker, envs(id)) else SkipStep(worker)
  }

  function AttemptSteps(worker: Id, jobs: seq<Job>, ids: seq<Id>, kind: Option<Kind>, envs: Id -> Env): seq<Step> {
    if ids == [] then []
    else
      AttemptSteps(worker, jobs, ids[..|ids| - 1], kind, envs)
      + [AttemptStep(worker, jobs, ids[|ids| - 1], kind, envs)]
  }

  function Attempted(db: Db, jobs: seq<Job>, ids: seq<Id>, kind: Option<Kind>, envs: Id -> Env): Db {
    FoldAll(Attempt(envs), db, Wanted(jobs, ids, kind))
  }

  lemma AttemptedMore(db: Db, jobs: seq<Job>, ids: seq<Id>, id: Id, kind: Option<Kind>, envs: Id -> Env)
    ensures var mid := Attempted(db, jobs, ids, kind, envs);
            Attempted(db, jobs, ids + [id], kind, envs) ==
            if IsWanted(jobs, id, kind) then Attempt(envs)(mid, id) else mid
  {
    assert (ids + [id])[..|ids|] == ids;
    FoldAllOne(Attempt(envs), db, Wanted(jobs, ids, kind), id);
  }

  lemma AttemptIsStep(mid: Sys, worker: Id, ids: seq<Id>, jobs: seq<Job>, kind: Option<Kind>, envs: Id -> Env)
    requires Held(mid, worker) == ids && ids != [] && ids[0] < |mid.db.jobs|
    ensures var db := if IsWanted(jobs, ids[0], kind) then Attempt(envs)(mid.db, ids[0]) else mid.db;
            && Next(mid, AttemptStep(worker, jobs, ids[0], kind, envs)) == Some(Sys(db, mid.held[worker := ids[1..]]))
            && |mid.db.jobs| <= |db.jobs|
  {
  }

  lemma {:induction false} AttemptsAreSteps(sys: Sys, worker: Id, ids: seq<Id>, n: nat, kind: Option<Kind>,
                                            envs: Id -> Env)
    requires Held(sys, worker) == ids && n <= |ids|
    requires forall i :: i in ids ==> i < |sys.db.jobs|
    ensures var db := Attempted(sys.db, sys.db.jobs, ids[..n], kind, envs);
            && |sys.db.jobs| <= |db.jobs|
            && Exec(sys, AttemptSteps(worker, sys.db.jobs, ids[..n], kind, envs)) ==
               Some(Sys(db, if n == 0 then sys.held else sys.held[worker := ids[n..]]))
  {
    if n > 0 {
      var jobs, id := sys.db.jobs, ids[n - 1];
      assert id in ids;
      AttemptsAreSteps(sys, worker, ids, n - 1, kind, envs);
      assert ids[..n] == ids[..n - 1] + [id];
      assert ids[..n][..n - 1] == ids[..n - 1];
      var earlier := AttemptSteps(worker, jobs, ids[..n - 1], kind, envs);
      var mid := Exec(sys, earlier).value;
      assert Held(mid, worker) == ids[n - 1..];
      assert ids[n - 1..][1..] == ids[n..];
      AttemptIsStep(mid, worker, ids[n - 1..], jobs, kind, envs);
      AttemptedMore(sys.db, jobs, ids[..n - 1], id, kind, envs);
      ExecOne(sys, earlier, AttemptStep(worker, jobs, id, kind, envs));
      assert mid.held[worker := ids[n..]] == sys.held[worker := ids[n..]];
    }
  }

  /** The tables a pass leaves are those of a run of the pipeline: one claim, then an attempt
      at each wanted job and a skip of each other one, after which the worker holds nothing. */
  lemma PassIsRun(sys: Sys, worker: Id, kind: Option<Kind>, now: int, busy: set<Id>, limit: nat, ids: seq<Id>,
                  envs: Id -> Env)
    requires Held(sys, worker) == [] && IsDueSelection(sys.db.jobs, now, busy, limit, ids)
    ensures var claimed := sys.db.(jobs := Claimed(sys.db.jobs, ids, worker, now));
            var steps := [ClaimStep(worker, now, busy, limit, ids)] +
                AttemptSteps(worker, claimed.jobs, ids, kind, envs);
            && Exec(sys, steps).Some?
            && Exec(sys, steps).value.db == Attempted(claimed, claimed.jobs, ids, kind, envs)
            && Held(Exec(sys, steps).value, worker) == []
  {
    var claim := ClaimStep(worker, now, busy, limit, ids);
    var mid := Next(sys, claim).value;
    assert ids[..|ids|] == ids;
    forall i | i in ids
      ensures i < |mid.db.jobs|
    {
      SelectedIsDue(sys.db.jobs, now, busy, limit, ids, i);
    }
    AttemptsAreSteps(mid, worker, ids, |ids|, kind, envs);
    FoldAppend(Stepper(), sys, [claim], AttemptSteps(worker, mid.db.jobs, ids, kind, envs));
    assert [] + [claim] == [claim];
    ExecOne(sys, [], claim);
  }

  // ---- jobs left behind --------------------------------------------------------------------------------

  /** Claimed, but no worker is going to run it. */
  ghost predicate Stranded(sys: Sys, id: Id) {
    && id < |sys.db.jobs| && sys.db.jobs[id].status.Running?
    && forall w :: w in sys.held ==> id !in sys.held[w]
  }

  /** A claimed job that its worker skips, or that it still holds when it crashes, is stranded. */
  lemma SkipAndCrashStrand(sys: Sys, worker: Id, k: nat)
    requires Exclusive(sys) && k < |Held(sys, worker)|
    ensures Stranded(Next(sys, CrashStep(worker)).value, Held(sys, worker)[k])
    ensures k == 0 ==> Stranded(Next(sys, SkipStep(worker)).value, Held(sys, worker)[0])
  {
    var id := Held(sys, worker)[k];
    forall w | w in sys.held && w != worker
      ensures id !in sys.held[w]
    {
      assert sys.db.jobs[id].lockedBy == Some(worker);
    }
    if k == 0 {
      var rest := sys.held[worker][1..];
      forall j | 0 <= j < |rest|
        ensures rest[j] != id
      {
        assert rest[j] == sys.held[worker][j + 1];
      }
    }
  }

  lemma StrandedStep(sys: Sys, step: Step, id: Id)
    requires Exclusive(sys) && Stranded(sys, id) && Next(sys, step).Some?
    ensures Stranded(Next(sys, step).value, id) && Next(sys, step).value.db.jobs[id] == sys.db.jobs[id]
  {
    var next := Next(sys, step).value;
    match step
    case RunStep(w, env) =>
      var ids := Held(sys, w);
      assert ids[0] in sys.held[w];
      RanOnlyJob(sys.db, ids[0], env);
    case ClaimStep(w, now, busy, limit, ids) => SelectedIsDue(sys.db.jobs, now, busy, limit, ids, id);
    case _ =>
  }

  /** A stranded job stays as it is in every run: it never runs again and never ends. */
  lemma {:induction false} StrandedForEver(sys: Sys, steps: seq<Step>, id: Id)
    requires Exclusive(sys) && Stranded(sys, id) && Exec(sys, steps).Some?
    ensures var last := Exec(sys, steps).value;
            Exclusive(last) && Stranded(last, id) && last.db.jobs[id] == sys.db.jobs[id]
  {
    if steps != [] {
      var n := |steps| - 1;
      var mid := Exec(sys, steps[..n]).value;
      StrandedForEver(sys, steps[..n], id);
      ExclusiveKept(mid, steps[n]);
      StrandedStep(mid, steps[n], id);
    }
  }

  /** While a job about a finding is active no other job about it can be attempted. */
  lemma AttemptsOwnJob(sys: Sys, step: Step, id: Id)
    requires Exclusive(sys) && OneActive(sys.db.findings, sys.db.jobs) && id < |sys.db.jobs|
    requires sys.db.jobs[id].task.GenerateExplanation? && Active(sys.db.jobs[id])
    ensures Attempts(sys, step, sys.db.jobs[id].task.finding) ==>
              Held(sys, step.worker)[0] == id && step.worker in sys.held && id in sys.held[step.worker]
  {
  }

  lemma BlockedStep(sys: Sys, step: Step, id: Id)
    requires SysInv(sys) && Stranded(sys, id) && Next(sys, step).Some?
    requires sys.db.jobs[id].task.GenerateExplanation?
    ensures var f, db := sys.db.jobs[id].task.finding, Next(sys, step).value.db;
            f < |sys.db.findings| && f < |db.findings| && db.findings[f].aiStatus == sys.db.findings[f].aiStatus
  {
    AttemptsOwnJob(sys, step, id);
    StepOnStatus(sys, step, sys.db.jobs[id].task.finding);
  }

  /** While its explanation job is stranded a finding is never explained, in any run: the
      guard against a second explanation job waits for the first. */
  lemma {:induction false} StrandedExplanationBlocks(sys: Sys, steps: seq<Step>, id: Id)
    requires SysInv(sys) && Stranded(sys, id) && Exec(sys, steps).Some?
    requires sys.db.jobs[id].task.GenerateExplanation?
    ensures var f, last := sys.db.jobs[id].task.finding, Exec(sys, steps).value;
            && SysInv(last) && Stranded(last, id) && last.db.jobs[id] == sys.db.jobs[id]
            && f < |sys.db.findings| && f < |last.db.findings|
            && last.db.findings[f].aiStatus == sys.db.findings[f].aiStatus
            && !last.db.findings[f].aiStatus.AiReady?
  {
    if steps != [] {
      var n := |steps| - 1;
      var mid := Exec(sys, steps[..n]).value;
      StrandedExplanationBlocks(sys, steps[..n], id);
      SysInvKept(mid, steps[n]);
      StrandedStep(mid, steps[n], id);
      BlockedStep(mid, steps[n], id);
    }
  }
}
