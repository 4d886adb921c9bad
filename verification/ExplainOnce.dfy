/** One explanation per finding over every run (src/app/analysis/rules.py:387-412,
    src/app/analysis/explain.py:61-136): explaining never looks whether the finding is already
    explained, the queue guard alone prevents a second explanation. */
module ExplainOnce {
  import opened Basics
  import opened Tables
  import opened JobQueue
  import opened Rules
  import opened Detection
  import opened DetectionProps
  import opened Explain
  import opened Worker
  import opened Pipeline

  function CountFor(explanations: seq<Explanation>, finding: Id): nat {
    if explanations == [] then 0
    else
      var n := |explanations| - 1;
      CountFor(explanations[..n], finding) + if explanations[n].finding == finding then 1 else 0
  }

  /** Every explanation job is about a finding of its enterprise. */
  ghost predicate JobsKnown(findings: seq<Finding>, jobs: seq<Job>) {
    forall i :: 0 <= i < |jobs| && jobs[i].task.GenerateExplanation? ==>
      jobs[i].task.finding < |findings| && findings[jobs[i].task.finding].ent == jobs[i].task.ent
  }

  /** At most one job about a finding is pending or running, and none once it is ready. */
  ghost predicate OneActive(findings: seq<Finding>, jobs: seq<Job>) {
    && (forall i, j :: 0 <= i < j < |jobs| && Active(jobs[i]) && Active(jobs[j])
                       && jobs[i].task.GenerateExplanation? && jobs[j].task.GenerateExplanation? ==>
          jobs[i].task.finding != jobs[j].task.finding)
    && (forall i :: 0 <= i < |jobs| && Active(jobs[i]) && jobs[i].task.GenerateExplanation?
                    && jobs[i].task.finding < |findings| ==>
          !findings[jobs[i].task.finding].aiStatus.AiReady?)
  }

  /** A ready finding has exactly one explanation, any other finding none. */
  ghost predicate Explained1(findings: seq<Finding>, explanations: seq<Explanation>) {
    && (forall k :: 0 <= k < |explanations| ==> explanations[k].finding < |findings|)
    && (forall f: Id :: f < |findings| ==>
          CountFor(explanations, f) == if findings[f].aiStatus.AiReady? then 1 else 0)
  }

  ghost predicate ExplainInv(findings: seq<Finding>, jobs: seq<Job>, explanations: seq<Explanation>) {
    JobsKnown(findings, jobs) && OneActive(findings, jobs) && Explained1(findings, explanations)
  }

  lemma {:induction false} NoneFor(explanations: seq<Explanation>, finding: Id)
    requires forall k :: 0 <= k < |explanations| ==> explanations[k].finding != finding
    ensures CountFor(explanations, finding) == 0
  {
    if explanations != [] {
      NoneFor(explanations[..|explanations| - 1], finding);
    }
  }

  lemma CountMore(explanations: seq<Explanation>, e: Explanation, finding: Id)
    ensures CountFor(explanations + [e], finding) ==
            CountFor(explanations, finding) + if e.finding == finding then 1 else 0
  {
    assert (explanations + [e])[..|explanations|] == explanations;
  }

  // ---- detection -------------------------------------------------------------------------------

  lemma ListedKeeps(findings: seq<Finding>, jobs: seq<Job>, explanations: seq<Explanation>, ent: Id, c: Candidate,
                    now: int)
    requires ExplainInv(findings, jobs, explanations)
    ensures ExplainInv(Listed(findings, ent, c, now), jobs, explanations)
  {
    NoneFor(explanations, |findings|);
  }

  lemma RequestedKeeps(findings: seq<Finding>, jobs: seq<Job>, explanations: seq<Explanation>, id: Id, now: int,
                       watermark: nat)
    requires ExplainInv(findings, jobs, explanations) && id < |findings|
    ensures ExplainInv(findings, Requested(findings[id], id, jobs, now, watermark), explanations)
  {
    RequestedEffect(findings[id], id, jobs, now, watermark);
    if !Queued(jobs, id) {
      forall i | 0 <= i < |jobs| && Active(jobs[i]) && jobs[i].task.GenerateExplanation?
        ensures jobs[i].task.finding != id
      {
        assert Explains(jobs[i], id) == (jobs[i].task.finding == id);
      }
    }
  }

  lemma {:induction false} DetectionKeeps(b: Book, signals: seq<Signal>, ent: Id, now: int, cs: seq<Candidate>,
                                          explanations: seq<Explanation>)
    requires ExplainInv(b.findings, b.jobs, explanations)
    ensures var after := AppliedAll(b, signals, ent, now, cs).book;
            ExplainInv(after.findings, after.jobs, explanations)
  {
    if cs != [] {
      var n := |cs| - 1;
      DetectionKeeps(b, signals, ent, now, cs[..n], explanations);
      var d := AppliedAll(b, signals, ent, now, cs[..n]).book;
      ListedKeeps(d.findings, d.jobs, explanations, ent, cs[n], now);
      RequestedKeeps(Listed(d.findings, ent, cs[n], now), d.jobs, explanations, ListedAs(d.findings, ent, cs[n]), now,
          |signals|);
    }
  }

  // ---- explaining --------------------------------------------------------------------------------

  lemma ExplainingCounts(db: Db, ent: Id, id: Id, provider: Provider, now: int)
    requires Known(db, ent, id) && !db.findings[id].aiStatus.AiReady?
    requires Explained1(db.findings, db.explanations)
    ensures var after := ExplainedDb(db, ent, id, provider, now);
            && Explained1(after.findings, after.explanations)
            && after.findings == db.findings[id := db.findings[id].(aiStatus := after.findings[id].aiStatus)]
            && after.jobs == db.jobs && db.explanations <= after.explanations
  {
    var after := ExplainedDb(db, ent, id, provider, now);
    if after.explanations != db.explanations {
      forall f: Id
        ensures CountFor(after.explanations, f) == CountFor(db.explanations, f) + if f == id then 1 else 0
      {
        CountMore(db.explanations, after.explanations[|db.explanations|], f);
      }
    }
  }

  /** Attempting the running job of a finding: it was the finding's only active job, so the
      finding was not ready, and afterwards no job of it is active. */
  lemma AttemptKeeps(db: Db, id: Id, env: Env)
    requires ExplainInv(db.findings, db.jobs, db.explanations)
    requires id < |db.jobs| && db.jobs[id].status.Running? && db.jobs[id].task.GenerateExplanation?
    ensures var after := Ran(db, id, env);
            && ExplainInv(after.findings, after.jobs, after.explanations)
            && after.jobs == db.jobs[id := Finish(db.jobs[id])]
            && db.explanations <= after.explanations
  {
    var task := db.jobs[id].task;
    assert Known(db, task.ent, task.finding);
    ExplainingCounts(db, task.ent, task.finding, env.provider, env.now);
  }

  /** Jobs may change state as long as none becomes active, and others may be appended. */
  lemma OtherJobsKeep(findings: seq<Finding>, jobs: seq<Job>, later: seq<Job>, explanations: seq<Explanation>)
    requires ExplainInv(findings, jobs, explanations) && |jobs| <= |later|
    requires forall i :: 0 <= i < |jobs| ==> later[i].task == jobs[i].task && (Active(later[i]) ==> Active(jobs[i]))
    requires forall i :: |jobs| <= i < |later| ==> !later[i].task.GenerateExplanation?
    ensures ExplainInv(findings, later, explanations)
  {
  }

  lemma DetectedKeeps(db: Db, ent: Id, now: int)
    requires ExplainInv(db.findings, db.jobs, db.explanations)
    ensures ExplainInv(DetectedDb(db, ent, now).findings, DetectedDb(db, ent, now).jobs, db.explanations)
  {
    DetectionKeeps(BookOf(db), db.signals, ent, now, Candidates(db.rows, db.aggregates, ent, now), db.explanations);
  }

  /** Only detection requests explanations. */
  lemma OthersRequestNothing(db: Db, id: Id, env: Env)
    requires id < |db.jobs| && !db.jobs[id].task.DetectRisks? && !db.jobs[id].task.GenerateExplanation?
    ensures var after := Ran(db, id, env);
            && after.findings == db.findings && after.explanations == db.explanations
            && forall i :: |db.jobs| <= i < |after.jobs| ==> !after.jobs[i].task.GenerateExplanation?
  {
    match db.jobs[id].task
    case ObserveSource(ent, source) => SyncAppendsJobs(db, ent, source, env);
    case _ =>
  }

  lemma RunKeeps(db: Db, id: Id, env: Env)
    requires ExplainInv(db.findings, db.jobs, db.explanations)
    requires id < |db.jobs| && db.jobs[id].status.Running?
    ensures var after := Ran(db, id, env);
            ExplainInv(after.findings, after.jobs, after.explanations)
  {
    var task, after := db.jobs[id].task, Ran(db, id, env);
    if task.GenerateExplanation? {
      AttemptKeeps(db, id, env);
    } else if task.DetectRisks? {
      DetectedKeeps(db, task.ent, env.now);
      DetectionAppendsJobs(db, task.ent, env.now);
      var detected := DetectedDb(db, task.ent, env.now);
      OtherJobsKeep(detected.findings, detected.jobs, after.jobs, db.explanations);
    } else {
      OthersRequestNothing(db, id, env);
      OtherJobsKeep(db.findings, db.jobs, after.jobs, db.explanations);
    }
  }

  /** Every step of the system keeps it. */
  lemma ExplainInvKept(sys: Sys, step: Step)
    requires Exclusive(sys) && Next(sys, step).Some?
    requires ExplainInv(sys.db.findings, sys.db.jobs, sys.db.explanations)
    ensures var db := Next(sys, step).value.db;
            ExplainInv(db.findings, db.jobs, db.explanations)
  {
    var db := Next(sys, step).value.db;
    match step
    case RunStep(w, env) => RunKeeps(sys.db, Held(sys, w)[0], env);
    case ClaimStep(w, now, busy, limit, ids) =>
      forall i | 0 <= i < |sys.db.jobs|
        ensures Active(db.jobs[i]) ==> Active(sys.db.jobs[i])
      {
        SelectedIsDue(sys.db.jobs, now, busy, limit, ids, i);
      }
      OtherJobsKeep(sys.db.findings, sys.db.jobs, db.jobs, db.explanations);
    case SubmitStep(_, _) => OtherJobsKeep(sys.db.findings, sys.db.jobs, db.jobs, db.explanations);
    case _ =>
  }

  lemma {:induction false} DetectionKeepsFindings(b: Book, signals: seq<Signal>, ent: Id, now: int, cs: seq<Candidate>)
    ensures b.findings <= AppliedAll(b, signals, ent, now, cs).book.findings
  {
    if cs != [] {
      DetectionKeepsFindings(b, signals, ent, now, cs[..|cs| - 1]);
    }
  }

  lemma DetectedKeepsFindings(db: Db, ent: Id, now: int)
    ensures db.findings <= DetectedDb(db, ent, now).findings
  {
    DetectionKeepsFindings(BookOf(db), db.signals, ent, now, Candidates(db.rows, db.aggregates, ent, now));
  }

  /** The step attempts a job about finding `f`. */
  predicate Attempts(sys: Sys, step: Step, f: Id) {
    step.RunStep? &&
    var ids := Held(sys, step.worker);
    && ids != [] && ids[0] < |sys.db.jobs|
    && Explains(sys.db.jobs[ids[0]], f)
  }

  lemma ExplainingOnStatus(db: Db, ent: Id, id: Id, provider: Provider, now: int)
    requires Known(db, ent, id)
    ensures var after := ExplainedDb(db, ent, id, provider, now);
            after.findings == db.findings[id := after.findings[id]]
  {
  }

  lemma EffectOnStatus(db: Db, task: Task, env: Env, f: Id)
    requires Effect(db, task, env).Some? && f < |db.findings|
    requires !(task.GenerateExplanation? && task.finding == f)
    ensures var after := Effect(db, task, env).value;
            f < |after.findings| && after.findings[f].aiStatus == db.findings[f].aiStatus
  {
    match task
    case DetectRisks(ent) => DetectedKeepsFindings(db, ent, env.now);
    case GenerateExplanation(ent, finding) => ExplainingOnStatus(db, ent, finding, env.provider, env.now);
    case _ =>
  }

  /** Only an attempt at its own explanation job changes a finding's AI status. */
  lemma StepOnStatus(sys: Sys, step: Step, f: Id)
    requires Next(sys, step).Some? && f < |sys.db.findings| && !Attempts(sys, step, f)
    ensures var db := Next(sys, step).value.db;
            f < |db.findings| && db.findings[f].aiStatus == sys.db.findings[f].aiStatus
  {
    if step.RunStep? {
      var task := sys.db.jobs[Held(sys, step.worker)[0]].task;
      if Effect(sys.db, task, step.env).Some? {
        EffectOnStatus(sys.db, task, step.env, f);
      }
    }
  }

  /** The readiness of a finding survives every step: no job about it is ever attempted. */
  lemma ReadyStays(sys: Sys, step: Step, f: Id)
    requires Exclusive(sys) && Next(sys, step).Some?
    requires ExplainInv(sys.db.findings, sys.db.jobs, sys.db.explanations)
    requires f < |sys.db.findings| && sys.db.findings[f].aiStatus.AiReady?
    ensures !Attempts(sys, step, f)
    ensures var db := Next(sys, step).value.db;
            f < |db.findings| && db.findings[f].aiStatus.AiReady?
  {
    StepOnStatus(sys, step, f);
  }

  /** Over every run: the guard lets at most one explanation job of a finding be active, a
      finding that is ready stays ready, and it has exactly one explanation for ever, the
      first one. */
  lemma {:induction false} OneExplanationForEver(sys: Sys, steps: seq<Step>)
    requires Exclusive(sys) && ExplainInv(sys.db.findings, sys.db.jobs, sys.db.explanations)
    requires Exec(sys, steps).Some?
    ensures var last := Exec(sys, steps).value;
            && Exclusive(last)
            && ExplainInv(last.db.findings, last.db.jobs, last.db.explanations)
            && sys.db.explanations <= last.db.explanations
            && forall f: Id :: f < |sys.db.findings| && sys.db.findings[f].aiStatus.AiReady? ==>
                 f < |last.db.findings| && last.db.findings[f].aiStatus.AiReady?
                 && CountFor(last.db.explanations, f) == CountFor(sys.db.explanations, f) == 1
  {
    if steps != [] {
      var n := |steps| - 1;
      var mid := Exec(sys, steps[..n]).value;
      OneExplanationForEver(sys, steps[..n]);
      ExclusiveKept(mid, steps[n]);
      ExplainInvKept(mid, steps[n]);
      ExplanationsGrow(mid, steps[n]);
      forall f: Id | f < |sys.db.findings| && sys.db.findings[f].aiStatus.AiReady?
        ensures f < |Exec(sys, steps).value.db.findings| && Exec(sys, steps).value.db.findings[f].aiStatus.AiReady?
      {
        ReadyStays(mid, steps[n], f);
      }
    }
  }

  lemma ExplanationsGrow(sys: Sys, step: Step)
    requires Next(sys, step).Some?
    ensures sys.db.explanations <= Next(sys, step).value.db.explanations
  {
  }
}
