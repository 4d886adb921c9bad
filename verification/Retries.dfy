/** How long a failing job waits (src/app/jobs/queue.py:23-24, 80-89, src/app/worker.py:52-58):
    what one raised attempt sets, and what all of them add up to over a run. */
module Retries {
  import opened Basics
  import opened Tables
  import opened JobQueue
  import opened Worker
  import opened Pipeline

  /** The step is an attempt at the job, and its handler raises. */
  predicate Raises(sys: Sys, step: Step, id: Id) {
    step.RunStep? &&
    var ids := Held(sys, step.worker);
    ids != [] && ids[0] == id && id < |sys.db.jobs| && Effect(sys.db, sys.db.jobs[id].task, step.env).None?
  }

  /** A raised attempt that is not the job's last one makes it due again five seconds later,
      doubled by every attempt so far and at most an hour; the last one fails it. */
  lemma RaisedAttemptWaits(sys: Sys, step: Step, id: Id)
    requires Next(sys, step).Some? && Raises(sys, step, id)
    ensures var before, jobs := sys.db.jobs[id], Next(sys, step).value.db.jobs;
            && id < |jobs| && jobs[id].attempts == before.attempts + 1
            && if before.attempts + 1 < before.maxAttempts
               then && jobs[id].status.Pending?
                    && jobs[id].runAt == step.env.now
                                         + (if 5 * Pow2(before.attempts + 1) <= 3600
                                            then 5 * Pow2(before.attempts + 1) else 3600) * 1_000_000
               else jobs[id].status.Failed? && jobs[id].runAt == before.runAt
  {
    RanOnlyJob(sys.db, id, step.env);
    RetriedMeans(sys.db.jobs[id], step.env.now, HANDLER_ERROR);
  }

  /** From the failed attempt to the time the job is due again; nothing for any other step, and
      nothing for the attempt that fails the job. */
  function WaitSet(sys: Sys, step: Step, id: Id): int {
    match Next(sys, step)
    case None => 0
    case Some(next) =>
      if Raises(sys, step, id) && id < |next.db.jobs| && next.db.jobs[id].status.Pending?
      then next.db.jobs[id].runAt - step.env.now else 0
  }

  function WaitsSet(sys: Sys, steps: seq<Step>, id: Id): int {
    if steps == [] then 0
    else
      var n := |steps| - 1;
      WaitsSet(sys, steps[..n], id)
      + match Exec(sys, steps[..n]) case None => 0 case Some(mid) => WaitSet(mid, steps[n], id)
  }

  /** The attempts a job has waited for, or is waiting for: all failed ones but a final one. */
  function Waited(j: Job): nat {
    if j.status.Failed? && j.attempts > 0 then j.attempts - 1 else j.attempts
  }

  lemma OtherStepsWait(sys: Sys, step: Step, id: Id)
    requires Exclusive(sys) && Next(sys, step).Some? && id < |sys.db.jobs| && !Raises(sys, step, id)
    ensures var jobs := Next(sys, step).value.db.jobs;
            && id < |jobs| && Waited(jobs[id]) == Waited(sys.db.jobs[id])
            && jobs[id].maxAttempts == sys.db.jobs[id].maxAttempts
  {
    match step
    case RunStep(w, env) => RanOnlyJob(sys.db, Held(sys, w)[0], env);
    case ClaimStep(w, now, busy, limit, ids) => SelectedIsDue(sys.db.jobs, now, busy, limit, ids, id);
    case _ =>
  }

  lemma WaitStep(sys: Sys, step: Step, id: Id)
    requires Exclusive(sys) && Next(sys, step).Some? && id < |sys.db.jobs|
    ensures var jobs := Next(sys, step).value.db.jobs;
            && id < |jobs|
            && TotalBackoff(Waited(jobs[id]) + 1) * SECOND ==
               TotalBackoff(Waited(sys.db.jobs[id]) + 1) * SECOND + WaitSet(sys, step, id)
  {
    if Raises(sys, step, id) {
      RaisedAttemptWaits(sys, step, id);
      assert sys.db.jobs[id].status.Running?;
    } else {
      OtherStepsWait(sys, step, id);
    }
  }

  lemma {:induction false} WaitsAddUp(sys: Sys, steps: seq<Step>, id: Id)
    requires Exclusive(sys) && Exec(sys, steps).Some? && id < |sys.db.jobs|
    ensures var last := Exec(sys, steps).value;
            && Exclusive(last) && id < |last.db.jobs|
            && TotalBackoff(Waited(last.db.jobs[id]) + 1) * SECOND ==
               TotalBackoff(Waited(sys.db.jobs[id]) + 1) * SECOND + WaitsSet(sys, steps, id)
  {
    if steps != [] {
      var n := |steps| - 1;
      var mid := Exec(sys, steps[..n]).value;
      WaitsAddUp(sys, steps[..n], id);
      ExclusiveKept(mid, steps[n]);
      WaitStep(mid, steps[n], id);
    }
  }

  /** Over every run of a job that starts without a failed attempt: once it has failed for good
      after `n` attempts, the waits they set add up to 10*(2^(n-1)-1) seconds up to ten attempts,
      and to one capped hour more for each further one; while it has not failed, its last failed
      attempt has set a wait too. */
  lemma WaitsOverARun(sys: Sys, steps: seq<Step>, id: Id)
    requires Exclusive(sys) && Exec(sys, steps).Some?
    requires id < |sys.db.jobs| && sys.db.jobs[id].attempts == 0
    ensures var last := Exec(sys, steps).value;
            && id < |last.db.jobs|
            && var n, waits := last.db.jobs[id].attempts, WaitsSet(sys, steps, id);
               if last.db.jobs[id].status.Failed? && n > 0
               then && (n <= 10 ==> waits == 10 * (Pow2(n - 1) - 1) * 1_000_000)
                    && (n > 10 ==> waits == (5110 + (n - 10) * 3600) * 1_000_000)
               else && (n <= 9 ==> waits == 10 * (Pow2(n) - 1) * 1_000_000)
                    && (n > 9 ==> waits == (5110 + (n - 9) * 3600) * 1_000_000)
  {
    WaitsAddUp(sys, steps, id);
    var j := Exec(sys, steps).value.db.jobs[id];
    TotalBackoffClosedForm(Waited(j) + 1);
  }
}
