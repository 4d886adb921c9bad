/** Job handlers and the worker that owns their transactions (src/app/worker.py,
    and the jobs modules of analysis, integration and observation). */
module Worker {
  import opened Basics
  import opened Folds
  import opened Tables
  import opened JobQueue
  import opened SyncSpec
  import opened SyncProps
  import opened Sync
  import opened Aggregates
  import opened Detection
  import opened Explain

  /** What a transaction takes from outside: the clock, what a synchronisation reads, the
      model's replies, and whether a mapping suggestion succeeds. */
  datatype Env = Env(now: int, intake: Intake, provider: Provider, suggested: bool)

  // ---- handlers ----------------------------------------------------------------------------------

  /** The tables a handler leaves when it returns, or None when it raises. Explaining swallows
      the unavailability of the model, so its fail-safe counts as returning. Suggesting mappings
      writes no table of this model. */
  function Effect(db: Db, task: Task, env: Env): Option<Db> {
    match task
    case ObserveSource(ent, source) =>
      (match SyncedDb(db, ent, source, env.intake, env.now)
       case None => None
       case Some(synced) =>
         Some(Enqueued(synced, task, env.now + db.sources[source].interval * SECOND)))
    case RecomputeAggregates(ent, items) =>
      (match Recomputed(db.aggregates, db.rows, ent, ItemsInScope(db.rows, ent, items), env.now)
       case None => None
       case Some(aggs) => Some(Enqueued(db.(aggregates := aggs), DetectRisks(ent), env.now)))
    case DetectRisks(ent) => Some(DetectedDb(db, ent, env.now))
    case GenerateExplanation(ent, finding) =>
      if Known(db, ent, finding) then Some(ExplainedDb(db, ent, finding, env.provider, env.now)) else None
    case SuggestMapping(_, _) => if env.suggested then Some(db) else None
    case Noop => Some(db)
    case UnknownKind(_) => None
  }

  method ObserveSourceHandler(s: Session, ent: Id, source: Id, env: Env) returns (raised: bool)
    requires DataInv(s.db.rows, s.db.signals)
    modifies s`db
    ensures raised <==> Effect(old(s.db), ObserveSource(ent, source), env).None?
    ensures !raised ==> Some(s.db) == Effect(old(s.db), ObserveSource(ent, source), env)
  {
    var r := SyncSource(s, ent, source, env.intake, env.now);
    if r.Raised? {
      return true;
    }
    Enqueue(s, ObserveSource(ent, source), env.now + s.db.sources[source].interval * SECOND);
    raised := false;
  }

  method RecomputeAggregatesHandler(s: Session, ent: Id, items: set<Id>, env: Env) returns (raised: bool)
    modifies s`db
    ensures raised <==> Effect(old(s.db), RecomputeAggregates(ent, items), env).None?
    ensures !raised ==> Some(s.db) == Effect(old(s.db), RecomputeAggregates(ent, items), env)
  {
    var ok, _ := RecomputeAll(s, ent, items, env.now);
    if !ok {
      return true;
    }
    Enqueue(s, DetectRisks(ent), env.now);
    raised := false;
  }

  method Handle(s: Session, task: Task, env: Env) returns (raised: bool)
    requires DataInv(s.db.rows, s.db.signals)
    modifies s`db
    ensures raised <==> Effect(old(s.db), task, env).None?
    ensures !raised ==> Some(s.db) == Effect(old(s.db), task, env)
  {
    match task {
      case ObserveSource(ent, source) =>
        raised := ObserveSourceHandler(s, ent, source, env);
      case RecomputeAggregates(ent, items) =>
        raised := RecomputeAggregatesHandler(s, ent, items, env);
      case DetectRisks(ent) =>
        var _ := DetectRisksIn(s, ent, env.now);
        raised := false;
      case GenerateExplanation(ent, finding) =>
        var r := ExplainRisk(s, ent, finding, env.provider, env.now);
        raised := r.NotFound?;
      case SuggestMapping(_, _) =>
        raised := !env.suggested;
      case Noop =>
        raised := false;
      case UnknownKind(_) =>
        raised := true;
    }
  }

  // ---- the worker ----------------------------------------------------------------------------------

  const HANDLER_ERROR := "handler raised"

  /** A synchronisation enqueues at most one job, a recomputation. */
  lemma SyncAppendsJobs(db: Db, ent: Id, source: Id, env: Env)
    ensures var synced := SyncedDb(db, ent, source, env.intake, env.now);
            synced.Some? ==>
              && db.jobs <= synced.value.jobs && |synced.value.jobs| <= |db.jobs| + 1
              && forall i :: |db.jobs| <= i < |synced.value.jobs| ==>
                   synced.value.jobs[i].status.Pending? && synced.value.jobs[i].task.RecomputeAggregates?
  {
  }

  lemma DetectionAppendsJobs(db: Db, ent: Id, now: int)
    ensures db.jobs <= DetectedDb(db, ent, now).jobs
  {
    AppliedAllAppendsJobs(BookOf(db), db.signals, ent, now, Candidates(db.rows, db.aggregates, ent, now));
  }

  lemma ExplainingKeepsJobs(db: Db, ent: Id, finding: Id, env: Env)
    requires Known(db, ent, finding)
    ensures ExplainedDb(db, ent, finding, env.provider, env.now).jobs == db.jobs
  {
  }

  /** Handlers only append jobs. */
  lemma EffectAppendsJobs(db: Db, task: Task, env: Env)
    requires Effect(db, task, env).Some?
    ensures db.jobs <= Effect(db, task, env).value.jobs
  {
    match task
    case ObserveSource(ent, source) => SyncAppendsJobs(db, ent, source, env);
    case DetectRisks(ent) => DetectionAppendsJobs(db, ent, env.now);
    case GenerateExplanation(ent, finding) => ExplainingKeepsJobs(db, ent, finding, env);
    case _ =>
  }

  /** The committed tables after one attempt at job `id`: the handler's effect with the job
      done, or, when it raises, nothing but the job's own retry or failure. */
  function Ran(db: Db, id: Id, env: Env): (after: Db)
    requires id < |db.jobs|
    ensures |db.jobs| <= |after.jobs|
  {
    match Effect(db, db.jobs[id].task, env)
    case None => FailedAttempt(db, id, env.now, HANDLER_ERROR)
    case Some(after) => EffectAppendsJobs(db, db.jobs[id].task, env); Finished(after, id)
  }

  lemma SyncKeepsData(db: Db, ent: Id, source: Id, env: Env)
    requires DataInv(db.rows, db.signals)
    ensures var synced := SyncedDb(db, ent, source, env.intake, env.now);
            synced.Some? ==>
              && DataInv(synced.value.rows, synced.value.signals)
              && RowsGrow(db.rows, synced.value.rows) && db.signals <= synced.value.signals
  {
    if SyncedDb(db, ent, source, env.intake, env.now).Some? {
      FoldKeepsData(FeedOf(ent, source, env.intake, env.now), Start(db.rows, db.signals),
                    AllLines(env.intake.mappings, env.intake.fetch.records));
    }
  }

  /** A synchronisation is the only handler that writes canonical data. */
  lemma EffectKeepsData(db: Db, task: Task, env: Env)
    requires DataInv(db.rows, db.signals) && Effect(db, task, env).Some?
    ensures var after := Effect(db, task, env).value;
            DataInv(after.rows, after.signals) && RowsGrow(db.rows, after.rows) && db.signals <= after.signals
  {
    if task.ObserveSource? {
      SyncKeepsData(db, task.ent, task.source, env);
    }
  }

  lemma RanKeepsData(db: Db, id: Id, env: Env)
    requires id < |db.jobs| && DataInv(db.rows, db.signals)
    ensures DataInv(Ran(db, id, env).rows, Ran(db, id, env).signals)
  {
    if Effect(db, db.jobs[id].task, env).Some? {
      EffectKeepsData(db, db.jobs[id].task, env);
    }
  }

  method RunJob(s: Session, id: Id, env: Env)
    requires s.db == s.committed && id < |s.db.jobs| && DataInv(s.db.rows, s.db.signals)
    modifies s
    ensures s.db == s.committed == Ran(old(s.db), id, env)
    ensures DataInv(s.db.rows, s.db.signals)
  {
    RanKeepsData(s.db, id, env);
    var task := s.db.jobs[id].task;
    if task.UnknownKind? {
      MarkFailedOrRetry(s, id, env.now, HANDLER_ERROR);
      s.Commit();
      return;
    }
    var raised := Handle(s, task, env);
    if raised {
      s.Rollback();
      MarkFailedOrRetry(s, id, env.now, HANDLER_ERROR);
    } else {
      EffectAppendsJobs(s.committed, task, env);
      MarkDone(s, id);
    }
    s.Commit();
  }

  datatype Kind = Observe | Recompute | Detect | Explaining | Suggest | Idle | Other(name: string)

  function KindOf(task: Task): Kind {
    match task
    case ObserveSource(_, _) => Observe
    case RecomputeAggregates(_, _) => Recompute
    case DetectRisks(_) => Detect
    case GenerateExplanation(_, _) => Explaining
    case SuggestMapping(_, _) => Suggest
    case Noop => Idle
    case UnknownKind(name) => Other(name)
  }

  /** The claimed jobs a worker restricted to one kind runs; the others stay claimed. */
  function Wanted(jobs: seq<Job>, ids: seq<Id>, kind: Option<Kind>): seq<Id> {
    if ids == [] then []
    else
      var rest, id := Wanted(jobs, ids[..|ids| - 1], kind), ids[|ids| - 1];
      if id < |jobs| && (kind.None? || KindOf(jobs[id].task) == kind.value) then rest + [id] else rest
  }

  function Attempt(envs: Id -> Env): (Db, Id) -> Db {
    (db: Db, id: Id) => if id < |db.jobs| then Ran(db, id, envs(id)) else db
  }

  /** One pass: claim the due jobs in one transaction, then attempt each wanted one in its own. */
  method ProcessOnce(s: Session, worker: Id, kind: Option<Kind>, now: int, busy: set<Id>, limit: nat, envs: Id -> Env)
    returns (processed: nat, claimed: seq<Id>)
    requires s.db == s.committed && DataInv(s.db.rows, s.db.signals)
    modifies s
    ensures IsDueSelection(old(s.db.jobs), now, busy, limit, claimed)
    ensures var db := old(s.db).(jobs := Claimed(old(s.db.jobs), claimed, worker, now));
            && s.db == FoldAll(Attempt(envs), db, Wanted(db.jobs, claimed, kind))
            && processed == |Wanted(db.jobs, claimed, kind)|
    ensures s.db == s.committed && DataInv(s.db.rows, s.db.signals)
  {
    claimed := ClaimDue(s, worker, now, busy, limit);
    s.Commit();
    var jobs := s.db.jobs;
    ghost var db := s.db;
    processed := 0;
    for n := 0 to |claimed|
      invariant s.db == s.committed && DataInv(s.db.rows, s.db.signals)
      invariant |jobs| <= |s.db.jobs|
      invariant s.db == FoldAll(Attempt(envs), db, Wanted(jobs, claimed[..n], kind))
      invariant processed == |Wanted(jobs, claimed[..n], kind)|
    {
      assert claimed[..n + 1][..n] == claimed[..n];
      var id := claimed[n];
      if kind.Some? && KindOf(jobs[id].task) != kind.value {
        continue;
      }
      FoldAllOne(Attempt(envs), db, Wanted(jobs, claimed[..n], kind), id);
      RunJob(s, id, envs(id));
      processed := processed + 1;
    }
    assert claimed[..|claimed|] == claimed;
  }
}
