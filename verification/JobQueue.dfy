/** The durable job queue (src/app/jobs/queue.py): claim, finish, retry with backoff. */
module JobQueue {
  import opened Basics
  import opened Tables

  const BACKOFF_BASE_SECONDS := 5
  const BACKOFF_CAP_SECONDS := 3600
  const DEFAULT_MAX_ATTEMPTS := 5
  const MAX_ERROR_LENGTH := 2000

  /** Seconds to wait after the given number of failed attempts. */
  function Backoff(attempts: nat): int {
    Min(BACKOFF_BASE_SECONDS * Pow2(attempts), BACKOFF_CAP_SECONDS)
  }

  lemma BackoffMonotone(m: nat, n: nat)
    requires m <= n
    ensures 0 < Backoff(m) <= Backoff(n) <= BACKOFF_CAP_SECONDS
  {
    Pow2Monotone(m, n);
  }

  /** Seconds a job waits between its attempts when all `n` of them fail. */
  function TotalBackoff(n: nat): int
  {
    if n <= 1 then 0 else TotalBackoff(n - 1) + Backoff(n - 1)
  }

  /** Up to the cap (ten attempts) the waits form a geometric series; any longer series
      adds one capped wait per attempt. */
  lemma {:induction false} TotalBackoffClosedForm(n: nat)
    requires n >= 1
    ensures n <= 10 ==> TotalBackoff(n) == 10 * (Pow2(n - 1) - 1)
    ensures n > 10 ==> TotalBackoff(n) == 5110 + (n - 10) * BACKOFF_CAP_SECONDS
  {
    if n == 1 {
    } else {
      TotalBackoffClosedForm(n - 1);
      PowersToTen();
      if n > 10 {
        BackoffMonotone(10, n - 1);
      } else {
        BackoffMonotone(n - 1, 10);
        Pow2Monotone(n - 1, 9);
      }
    }
  }

  lemma PowersToTen()
    ensures Pow2(9) == 512 && Pow2(10) == 1024
  {
    assert Pow2(3) == 8;
    assert Pow2(6) == 64;
    assert Pow2(9) == 512;
  }

  // ---- enqueue ---------------------------------------------------------------------------

  function NewJob(task: Task, runAt: int, watermark: nat): Job {
    Job(task, runAt, Pending, 0, DEFAULT_MAX_ATTEMPTS, None, None, None, watermark)
  }

  function Enqueued(db: Db, task: Task, runAt: int): Db {
    db.(jobs := db.jobs + [NewJob(task, runAt, |db.signals|)])
  }

  method Enqueue(s: Session, task: Task, runAt: int)
    modifies s`db
    ensures s.db == Enqueued(old(s.db), task, runAt)
    ensures s.db == old(s.db).(jobs := s.db.jobs) && |s.db.jobs| == |old(s.db.jobs)| + 1 && old(s.db.jobs) <= s.db.jobs
    ensures var j := s.db.jobs[|old(s.db.jobs)|];
            && j.task == task && j.runAt == runAt && j.status.Pending? && j.attempts == 0 && j.maxAttempts == 5
            && j.lockedBy.None? && j.lockedAt.None? && j.lastError.None?
  {
    s.db := s.db.(jobs := s.db.jobs + [NewJob(task, runAt, |s.db.signals|)]);
  }

  // ---- claim -----------------------------------------------------------------------------

  predicate Due(jobs: seq<Job>, now: int, busy: set<Id>, i: Id) {
    i < |jobs| && jobs[i].status.Pending? && jobs[i].runAt <= now && i !in busy
  }

  predicate Distinct(ids: seq<Id>) {
    forall i, j :: 0 <= i < j < |ids| ==> ids[i] != ids[j]
  }

  /** `ids` is an answer of the claiming query: at most `limit` due jobs that no other
      transaction holds locked (`busy`), earliest first, none left out that is earlier,
      and none left out at all while the limit is not reached. */
  predicate IsDueSelection(jobs: seq<Job>, now: int, busy: set<Id>, limit: nat, ids: seq<Id>) {
    && |ids| <= limit
    && Distinct(ids)
    && (forall k :: 0 <= k < |ids| ==> Due(jobs, now, busy, ids[k]))
    && (forall j, k :: 0 <= j < k < |ids| ==> jobs[ids[j]].runAt <= jobs[ids[k]].runAt)
    && (forall i, k :: 0 <= i < |jobs| && Due(jobs, now, busy, i) && i !in ids && 0 <= k < |ids| ==>
          jobs[ids[k]].runAt <= jobs[i].runAt)
    && (|ids| < limit ==> forall i :: 0 <= i < |jobs| && Due(jobs, now, busy, i) ==> i in ids)
  }

  /** Said of the jobs themselves: the claimed ones were pending, due and not locked; any other
      such job is left only when the limit is used up by jobs that were due no later. */
  ghost predicate SelectionMeans(jobs: seq<Job>, now: int, busy: set<Id>, limit: nat, ids: seq<Id>) {
    && |ids| <= limit
    && (forall id :: id in ids ==>
          id < |jobs| && jobs[id].status.Pending? && jobs[id].runAt <= now && id !in busy)
    && (forall i: Id :: i < |jobs| && jobs[i].status.Pending? && jobs[i].runAt <= now && i !in busy && i !in ids ==>
          |ids| == limit && forall id :: id in ids ==> jobs[id].runAt <= jobs[i].runAt)
  }

  lemma SelectionIs(jobs: seq<Job>, now: int, busy: set<Id>, limit: nat, ids: seq<Id>)
    requires IsDueSelection(jobs, now, busy, limit, ids)
    ensures SelectionMeans(jobs, now, busy, limit, ids)
  {
    forall id | id in ids
      ensures id < |jobs| && jobs[id].status.Pending? && jobs[id].runAt <= now && id !in busy
    {
      SelectedIsDue(jobs, now, busy, limit, ids, id);
    }
  }

  lemma SelectedIsDue(jobs: seq<Job>, now: int, busy: set<Id>, limit: nat, ids: seq<Id>, id: Id)
    requires IsDueSelection(jobs, now, busy, limit, ids)
    ensures id in ids ==> Due(jobs, now, busy, id)
  {
    if id in ids {
      var k :| 0 <= k < |ids| && ids[k] == id;
    }
  }

  function Claim(j: Job, worker: Id, now: int): Job {
    j.(status := Running, lockedBy := Some(worker), lockedAt := Some(now))
  }

  /** The job table after the jobs in `ids` were claimed. */
  function Claimed(jobs: seq<Job>, ids: seq<Id>, worker: Id, now: int): (r: seq<Job>)
    ensures |r| == |jobs|
  {
    seq(|jobs|, i requires 0 <= i < |jobs| => if i in ids then Claim(jobs[i], worker, now) else jobs[i])
  }

  /** The earliest due job that is not yet selected. */
  method EarliestDue(jobs: seq<Job>, now: int, busy: set<Id>, taken: seq<Id>) returns (best: Option<Id>)
    ensures best.None? ==> forall i :: 0 <= i < |jobs| && Due(jobs, now, busy, i) ==> i in taken
    ensures best.Some? ==> Due(jobs, now, busy, best.value) && best.value !in taken
    ensures best.Some? ==> forall i :: 0 <= i < |jobs| && Due(jobs, now, busy, i) && i !in taken ==>
                             jobs[best.value].runAt <= jobs[i].runAt
  {
    best := None;
    for i := 0 to |jobs|
      invariant best.None? ==> forall k :: 0 <= k < i && Due(jobs, now, busy, k) ==> k in taken
      invariant best.Some? ==> Due(jobs, now, busy, best.value) && best.value !in taken
      invariant best.Some? ==> forall k :: 0 <= k < i && Due(jobs, now, busy, k) && k !in taken ==>
                                 jobs[best.value].runAt <= jobs[k].runAt
    {
      if Due(jobs, now, busy, i) && i !in taken
         && (best.None? || jobs[i].runAt < jobs[best.value].runAt) {
        best := Some(i);
      }
    }
  }

  method SelectDue(jobs: seq<Job>, now: int, busy: set<Id>, limit: nat) returns (ids: seq<Id>)
    ensures IsDueSelection(jobs, now, busy, limit, ids)
  {
    ids := [];
    while |ids| < limit
      invariant |ids| <= limit
      invariant Distinct(ids)
      invariant forall k :: 0 <= k < |ids| ==> Due(jobs, now, busy, ids[k])
      invariant forall j, k :: 0 <= j < k < |ids| ==> jobs[ids[j]].runAt <= jobs[ids[k]].runAt
      invariant forall i, k :: 0 <= i < |jobs| && Due(jobs, now, busy, i) && i !in ids && 0 <= k < |ids| ==>
                  jobs[ids[k]].runAt <= jobs[i].runAt
    {
      var next := EarliestDue(jobs, now, busy, ids);
      if next.None? {
        break;
      }
      ids := ids + [next.value];
    }
  }

  method ClaimDue(s: Session, worker: Id, now: int, busy: set<Id>, limit: nat) returns (ids: seq<Id>)
    modifies s`db
    ensures IsDueSelection(old(s.db.jobs), now, busy, limit, ids)
    ensures s.db == old(s.db).(jobs := Claimed(old(s.db.jobs), ids, worker, now))
    ensures SelectionMeans(old(s.db.jobs), now, busy, limit, ids)
    ensures |s.db.jobs| == |old(s.db.jobs)|
    ensures forall i :: 0 <= i < |s.db.jobs| ==>
              var j, before := s.db.jobs[i], old(s.db.jobs)[i];
              if i in ids
              then && j.status.Running? && j.lockedBy == Some(worker) && j.lockedAt == Some(now)
                   && j == before.(status := j.status, lockedBy := j.lockedBy, lockedAt := j.lockedAt)
              else j == before
  {
    ids := SelectDue(s.db.jobs, now, busy, limit);
    SelectionIs(s.db.jobs, now, busy, limit, ids);
    for n := 0 to |ids|
      invariant |s.db.jobs| == |old(s.db.jobs)|
      invariant s.db == old(s.db).(jobs := s.db.jobs)
      invariant forall k :: 0 <= k < n ==> s.db.jobs[ids[k]] == Claim(old(s.db.jobs)[ids[k]], worker, now)
      invariant forall i :: 0 <= i < |s.db.jobs| && i !in ids[..n] ==> s.db.jobs[i] == old(s.db.jobs)[i]
    {
      var job := s.db.jobs[ids[n]];
      s.db := s.db.(jobs := s.db.jobs[ids[n] := Claim(job, worker, now)]);
      assert ids[..n + 1] == ids[..n] + [ids[n]];
    }
    assert ids[..|ids|] == ids;
    forall i | 0 <= i < |s.db.jobs|
      ensures s.db.jobs[i] == Claimed(old(s.db.jobs), ids, worker, now)[i]
    {
      if i in ids {
        var k :| 0 <= k < |ids| && ids[k] == i;
      }
    }
  }

  // ---- finish ----------------------------------------------------------------------------

  function Finish(j: Job): Job {
    j.(status := Done, lockedBy := None, lockedAt := None)
  }

  function Finished(db: Db, id: Id): Db
    requires id < |db.jobs|
  {
    db.(jobs := db.jobs[id := Finish(db.jobs[id])])
  }

  method MarkDone(s: Session, id: Id)
    requires id < |s.db.jobs|
    modifies s`db
    ensures s.db == Finished(old(s.db), id)
    ensures s.db == old(s.db).(jobs := s.db.jobs)
    ensures s.db.jobs == old(s.db.jobs)[id := old(s.db.jobs)[id].(status := Done, lockedBy := None, lockedAt := None)]
  {
    s.db := s.db.(jobs := s.db.jobs[id := s.db.jobs[id].(status := Done, lockedBy := None, lockedAt := None)]);
  }

  function Truncate(error: string): string {
    if |error| <= MAX_ERROR_LENGTH then error else error[..MAX_ERROR_LENGTH]
  }

  /** A failed attempt: retry later with backoff, or fail for good at the last attempt. */
  function Retried(j: Job, now: int, error: string): Job {
    var failed := j.(attempts := j.attempts + 1, lastError := Some(Truncate(error)),
                     lockedBy := None, lockedAt := None);
    if failed.attempts >= failed.maxAttempts then
      failed.(status := Failed)
    else
      failed.(status := Pending, runAt := now + Backoff(failed.attempts) * SECOND)
  }

  /** What a failed attempt leaves of a job: one attempt more and no lock; it has failed when its
      attempts are used up, and otherwise waits five seconds doubled by every attempt so far, but
      no longer than an hour. */
  predicate RetryMeans(before: Job, after: Job, now: int, error: string) {
    var wait := 5 * Pow2(before.attempts + 1);
    && after.task == before.task && after.maxAttempts == before.maxAttempts && after.watermark == before.watermark
    && after.attempts == before.attempts + 1
    && after.lockedBy.None? && after.lockedAt.None?
    && after.lastError == Some(if |error| <= 2000 then error else error[..2000])
    && if before.attempts + 1 >= before.maxAttempts
       then after.status.Failed? && after.runAt == before.runAt
       else && after.status.Pending?
            && after.runAt == now + (if wait <= 3600 then wait else 3600) * 1_000_000
  }

  lemma RetriedMeans(j: Job, now: int, error: string)
    ensures RetryMeans(j, Retried(j, now, error), now, error)
  {
  }

  function FailedAttempt(db: Db, id: Id, now: int, error: string): Db
    requires id < |db.jobs|
  {
    db.(jobs := db.jobs[id := Retried(db.jobs[id], now, error)])
  }

  method MarkFailedOrRetry(s: Session, id: Id, now: int, error: string)
    requires id < |s.db.jobs|
    modifies s`db
    ensures s.db == FailedAttempt(old(s.db), id, now, error)
    ensures s.db == old(s.db).(jobs := old(s.db.jobs)[id := s.db.jobs[id]]) && id < |s.db.jobs|
    ensures RetryMeans(old(s.db.jobs)[id], s.db.jobs[id], now, error)
  {
    var job := s.db.jobs[id];
    job := job.(attempts := job.attempts + 1, lastError := Some(Truncate(error)), lockedBy := None, lockedAt := None);
    if job.attempts >= job.maxAttempts {
      job := job.(status := Failed);
    } else {
      job := job.(status := Pending, runAt := now + Backoff(job.attempts) * SECOND);
    }
    s.db := s.db.(jobs := s.db.jobs[id := job]);
  }
}
