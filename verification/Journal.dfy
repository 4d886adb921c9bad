/** Exactly-once effects (src/app/worker.py:44-80): whatever the workers do, the business tables
    are the handlers of the completed jobs applied once each, in commit order. */
module Journal {
  import opened Basics
  import opened Folds
  import opened Tables
  import opened JobQueue
  import opened SyncSpec
  import opened Rules
  import opened Detection
  import opened Explain
  import opened Worker
  import opened Pipeline

  /** Every table but the queue. */
  function Business(db: Db): Db {
    db.(jobs := [])
  }

  lemma {:induction false} DetectionIgnoresJobs(b: Book, other: Book, signals: seq<Signal>, ent: Id, now: int,
                                                cs: seq<Candidate>)
    requires b.findings == other.findings && b.links == other.links
    ensures var x, y := AppliedAll(b, signals, ent, now, cs).book, AppliedAll(other, signals, ent, now, cs).book;
            x.findings == y.findings && x.links == y.links
  {
    if cs != [] {
      DetectionIgnoresJobs(b, other, signals, ent, now, cs[..|cs| - 1]);
    }
  }

  lemma SyncIgnoresJobs(db: Db, ent: Id, source: Id, env: Env)
    ensures var x := SyncedDb(db, ent, source, env.intake, env.now);
            var y := SyncedDb(Business(db), ent, source, env.intake, env.now);
            (x.Some? <==> y.Some?) && (x.Some? ==> Business(x.value) == Business(y.value))
  {
  }

  lemma DetectionIgnoresQueue(db: Db, ent: Id, now: int)
    ensures Business(DetectedDb(db, ent, now)) == Business(DetectedDb(Business(db), ent, now))
  {
    DetectionIgnoresJobs(BookOf(db), BookOf(Business(db)), db.signals, ent, now,
        Candidates(db.rows, db.aggregates, ent, now));
  }

  lemma ExplainingIgnoresQueue(db: Db, ent: Id, finding: Id, env: Env)
    requires Known(db, ent, finding)
    ensures Business(ExplainedDb(db, ent, finding, env.provider, env.now)) ==
            Business(ExplainedDb(Business(db), ent, finding, env.provider, env.now))
  {
    assert EvidenceOf(Business(db), finding) == EvidenceOf(db, finding);
  }

  /** What a handler does to the business tables, and whether it raises, does not depend on
      the queue. */
  lemma EffectIgnoresJobs(db: Db, task: Task, env: Env)
    ensures Effect(db, task, env).Some? <==> Effect(Business(db), task, env).Some?
    ensures Effect(db, task, env).Some? ==>
              Business(Effect(db, task, env).value) == Business(Effect(Business(db), task, env).value)
  {
    match task
    case ObserveSource(ent, source) => SyncIgnoresJobs(db, ent, source, env);
    case DetectRisks(ent) => DetectionIgnoresQueue(db, ent, env.now);
    case GenerateExplanation(ent, finding) =>
      if Known(db, ent, finding) {
        ExplainingIgnoresQueue(db, ent, finding, env);
      }
    case _ =>
  }

  // ---- the journal of commits ---------------------------------------------------------------------

  /** A committed change of the business tables: a completed job, or an interactive step. */
  datatype Entry = JobEntry(id: Id, task: Task, env: Env) | ApiEntry(step: Step)

  function EntryOf(sys: Sys, step: Step): seq<Entry> {
    match step
    case RunStep(w, env) =>
      var ids := Held(sys, w);
      if ids != [] && ids[0] < |sys.db.jobs| && Effect(sys.db, sys.db.jobs[ids[0]].task, env).Some?
      then [JobEntry(ids[0], sys.db.jobs[ids[0]].task, env)] else []
    case DismissStep(_, _, _, _, _) => [ApiEntry(step)]
    case CheckStep(_, _, _, _) => [ApiEntry(step)]
    case SuggestFailStep(_, _, _, _) => [ApiEntry(step)]
    case _ => []
  }

  function JournalOf(sys: Sys, steps: seq<Step>): seq<Entry> {
    if steps == [] then []
    else
      var n := |steps| - 1;
      JournalOf(sys, steps[..n])
      + match Exec(sys, steps[..n]) case None => [] case Some(mid) => EntryOf(mid, steps[n])
  }

  /** The entry's handler returns on these tables, or its interactive step is possible. */
  predicate Applies(biz: Db, e: Entry) {
    match e
    case JobEntry(_, task, env) => Effect(biz, task, env).Some?
    case ApiEntry(step) => Next(Sys(biz, map[]), step).Some?
  }

  /** Applying one entry to the business tables; every entry of a journal applies at its place. */
  function Replayed(biz: Db, e: Entry): Db {
    if !Applies(biz, e) then biz
    else
      match e
      case JobEntry(_, task, env) => Business(Effect(biz, task, env).value)
      case ApiEntry(step) => Business(Next(Sys(biz, map[]), step).value.db)
  }

  function Replayer(): (Db, Entry) -> Db {
    (biz, e) => Replayed(biz, e)
  }

  lemma StepIsEntry(sys: Sys, step: Step)
    requires Next(sys, step).Some?
    ensures |EntryOf(sys, step)| <= 1
    ensures Business(Next(sys, step).value.db) ==
            if EntryOf(sys, step) == [] then Business(sys.db) else Replayed(Business(sys.db), EntryOf(sys, step)[0])
    ensures EntryOf(sys, step) != [] ==> Applies(Business(sys.db), EntryOf(sys, step)[0])
  {
    if step.RunStep? {
      EffectIgnoresJobs(sys.db, sys.db.jobs[Held(sys, step.worker)[0]].task, step.env);
    }
  }

  /** Each entry applies to the tables that the entries before it left. */
  ghost predicate AppliesInPlace(biz: Db, journal: seq<Entry>) {
    forall k :: 0 <= k < |journal| ==> Applies(FoldAll(Replayer(), biz, journal[..k]), journal[k])
  }

  lemma AppliesInPlaceMore(biz: Db, journal: seq<Entry>, e: Entry)
    requires AppliesInPlace(biz, journal) && Applies(FoldAll(Replayer(), biz, journal), e)
    ensures AppliesInPlace(biz, journal + [e])
    ensures FoldAll(Replayer(), biz, journal + [e]) == Replayed(FoldAll(Replayer(), biz, journal), e)
  {
    var more := journal + [e];
    forall k | 0 <= k < |more|
      ensures Applies(FoldAll(Replayer(), biz, more[..k]), more[k])
    {
      assert more[..k] == if k < |journal| then journal[..k] else journal;
    }
    FoldAllOne(Replayer(), biz, journal, e);
  }

  /** After any run the business tables are those at its start with every journal entry
      applied once, in order, each where it applies. */
  lemma {:induction false} JournalExplainsTables(sys: Sys, steps: seq<Step>)
    requires Exec(sys, steps).Some?
    ensures Business(Exec(sys, steps).value.db) == FoldAll(Replayer(), Business(sys.db), JournalOf(sys, steps))
    ensures AppliesInPlace(Business(sys.db), JournalOf(sys, steps))
  {
    if steps != [] {
      var n := |steps| - 1;
      var mid := Exec(sys, steps[..n]).value;
      JournalExplainsTables(sys, steps[..n]);
      StepIsEntry(mid, steps[n]);
      var before, entries := JournalOf(sys, steps[..n]), EntryOf(mid, steps[n]);
      if entries == [] {
        assert before + entries == before;
      } else {
        assert entries == [entries[0]];
        AppliesInPlaceMore(Business(sys.db), before, entries[0]);
      }
    }
  }

  // ---- each completed job once ------------------------------------------------------------------------

  function JobIds(journal: seq<Entry>): seq<Id> {
    if journal == [] then []
    else
      var rest, e := JobIds(journal[..|journal| - 1]), journal[|journal| - 1];
      if e.JobEntry? then rest + [e.id] else rest
  }

  predicate IsDone(jobs: seq<Job>, id: Id) {
    id < |jobs| && jobs[id].status.Done?
  }

  /** The job a step completes, if any. */
  function Completes(sys: Sys, step: Step): Option<Id> {
    if step.RunStep? then
      var ids := Held(sys, step.worker);
      if ids != [] && ids[0] < |sys.db.jobs| && Effect(sys.db, sys.db.jobs[ids[0]].task, step.env).Some?
      then Some(ids[0]) else None
    else None
  }

  lemma EntryNamesJob(sys: Sys, step: Step)
    ensures JobIds(EntryOf(sys, step)) == match Completes(sys, step) case None => [] case Some(id) => [id]
  {
    var entries := EntryOf(sys, step);
    assert entries != [] ==> entries[..|entries| - 1] == [];
  }

  lemma DoneRun(db: Db, mine: Id, env: Env, id: Id)
    requires mine < |db.jobs| && db.jobs[mine].status.Running?
    ensures IsDone(Ran(db, mine, env).jobs, id) <==>
              IsDone(db.jobs, id) || (id == mine && Effect(db, db.jobs[mine].task, env).Some?)
  {
    RanOnlyJob(db, mine, env);
    if Effect(db, db.jobs[mine].task, env).Some? {
      AppendedPending(db, db.jobs[mine].task, env);
      EffectAppendsJobs(db, db.jobs[mine].task, env);
    }
  }

  lemma DoneStep(sys: Sys, step: Step, id: Id)
    requires Exclusive(sys) && Next(sys, step).Some?
    ensures IsDone(Next(sys, step).value.db.jobs, id) <==> IsDone(sys.db.jobs, id) || Completes(sys, step) == Some(id)
    ensures Completes(sys, step) == Some(id) ==> !IsDone(sys.db.jobs, id)
  {
    match step
    case RunStep(w, env) => DoneRun(sys.db, Held(sys, w)[0], env, id);
    case ClaimStep(w, now, busy, limit, ids) => SelectedIsDue(sys.db.jobs, now, busy, limit, ids, id);
    case _ =>
  }

  lemma DetectedPending(db: Db, ent: Id, now: int)
    ensures var later := DetectedDb(db, ent, now).jobs;
            && db.jobs <= later
            && forall i :: |db.jobs| <= i < |later| ==> later[i].status.Pending? && later[i].task.GenerateExplanation?
  {
    DetectionAppendsPending(BookOf(db), db.signals, ent, now, Candidates(db.rows, db.aggregates, ent, now));
  }

  /** Handlers enqueue jobs as pending. */
  lemma AppendedPending(db: Db, task: Task, env: Env)
    requires Effect(db, task, env).Some?
    ensures var later := Effect(db, task, env).value.jobs;
            forall i :: |db.jobs| <= i < |later| ==> later[i].status.Pending?
  {
    match task
    case ObserveSource(ent, source) => SyncAppendsJobs(db, ent, source, env);
    case DetectRisks(ent) => DetectedPending(db, ent, env.now);
    case GenerateExplanation(ent, finding) => ExplainingKeepsJobs(db, ent, finding, env);
    case _ =>
  }

  lemma {:induction false} DetectionAppendsPending(b: Book, signals: seq<Signal>, ent: Id, now: int, cs: seq<Candidate>)
    ensures var later := AppliedAll(b, signals, ent, now, cs).book.jobs;
            b.jobs <= later
            && forall i :: |b.jobs| <= i < |later| ==> later[i].status.Pending? && later[i].task.GenerateExplanation?
  {
    if cs != [] {
      DetectionAppendsPending(b, signals, ent, now, cs[..|cs| - 1]);
    }
  }

  lemma {:induction false} JobIdsAppend(a: seq<Entry>, b: seq<Entry>)
    requires |b| <= 1
    ensures JobIds(a + b) == JobIds(a) + JobIds(b)
  {
    if b == [] {
      assert a + b == a;
    } else {
      assert (a + b)[..|a|] == a;
      assert b[..0] == [];
    }
  }

  /** `ids` are the jobs that are done at last and were not at first, each once. */
  ghost predicate Names(ids: seq<Id>, first: seq<Job>, last: seq<Job>) {
    && Distinct(ids)
    && (forall id: Id :: IsDone(last, id) <==> IsDone(first, id) || id in ids)
    && (forall id: Id :: id in ids ==> !IsDone(first, id))
  }

  lemma NamesMore(ids: seq<Id>, first: seq<Job>, mid: seq<Job>, last: seq<Job>, more: Option<Id>)
    requires Names(ids, first, mid)
    requires forall id: Id :: IsDone(last, id) <==> IsDone(mid, id) || more == Some(id)
    requires more.Some? ==> !IsDone(mid, more.value)
    ensures Names(ids + match more case None => [] case Some(id) => [id], first, last)
  {
  }

  lemma {:induction false} JournalNamesDone(sys: Sys, steps: seq<Step>)
    requires Exclusive(sys) && Exec(sys, steps).Some?
    ensures Exclusive(Exec(sys, steps).value)
    ensures Names(JobIds(JournalOf(sys, steps)), sys.db.jobs, Exec(sys, steps).value.db.jobs)
  {
    if steps != [] {
      var n := |steps| - 1;
      var mid := Exec(sys, steps[..n]).value;
      JournalNamesDone(sys, steps[..n]);
      ExclusiveKept(mid, steps[n]);
      JournalMore(sys, steps);
      EntryNamesJob(mid, steps[n]);
      DoneSteps(mid, steps[n]);
      NamesMore(JobIds(JournalOf(sys, steps[..n])), sys.db.jobs, mid.db.jobs, Next(mid, steps[n]).value.db.jobs,
                Completes(mid, steps[n]));
    }
  }

  lemma DoneSteps(sys: Sys, step: Step)
    requires Exclusive(sys) && Next(sys, step).Some?
    ensures forall id: Id :: IsDone(Next(sys, step).value.db.jobs, id) <==>
              IsDone(sys.db.jobs, id) || Completes(sys, step) == Some(id)
    ensures Completes(sys, step).Some? ==> !IsDone(sys.db.jobs, Completes(sys, step).value)
  {
    forall id: Id
      ensures IsDone(Next(sys, step).value.db.jobs, id) <==> IsDone(sys.db.jobs, id) || Completes(sys, step) == Some(id)
      ensures Completes(sys, step) == Some(id) ==> !IsDone(sys.db.jobs, id)
    {
      DoneStep(sys, step, id);
    }
  }

  lemma JournalMore(sys: Sys, steps: seq<Step>)
    requires steps != [] && Exec(sys, steps).Some?
    ensures var n := |steps| - 1;
            && Exec(sys, steps[..n]).Some?
            && Next(Exec(sys, steps[..n]).value, steps[n]) == Exec(sys, steps)
            && JobIds(JournalOf(sys, steps)) ==
               JobIds(JournalOf(sys, steps[..n])) + JobIds(EntryOf(Exec(sys, steps[..n]).value, steps[n]))
  {
    var n := |steps| - 1;
    var mid := Exec(sys, steps[..n]).value;
    StepIsEntry(mid, steps[n]);
    JobIdsAppend(JournalOf(sys, steps[..n]), EntryOf(mid, steps[n]));
  }

  /** The journal names every job that completed during the run, exactly once, and no other:
      however often a job was claimed, retried or lost, its handler's effect is in the tables
      once if it is done and not at all otherwise. */
  lemma ExactlyOnce(sys: Sys, steps: seq<Step>)
    requires Exclusive(sys) && Exec(sys, steps).Some?
    ensures var last, journal := Exec(sys, steps).value, JournalOf(sys, steps);
            && Business(last.db) == FoldAll(Replayer(), Business(sys.db), journal)
            && AppliesInPlace(Business(sys.db), journal)
            && Distinct(JobIds(journal))
            && (forall id: Id :: id in JobIds(journal) <==> IsDone(last.db.jobs, id) && !IsDone(sys.db.jobs, id))
            && (forall id: Id :: IsDone(sys.db.jobs, id) ==> IsDone(last.db.jobs, id))
  {
    JournalExplainsTables(sys, steps);
    JournalNamesDone(sys, steps);
  }

  /** What an entry replays is the task of the job it names. */
  lemma {:induction false} EntriesAreTheJobs(sys: Sys, steps: seq<Step>, k: nat)
    requires Exec(sys, steps).Some? && k < |JournalOf(sys, steps)| && JournalOf(sys, steps)[k].JobEntry?
    ensures var last, e := Exec(sys, steps).value, JournalOf(sys, steps)[k];
            e.id < |last.db.jobs| && last.db.jobs[e.id].task == e.task
  {
    var n := |steps| - 1;
    var mid := Exec(sys, steps[..n]).value;
    var before := JournalOf(sys, steps[..n]);
    TasksStay(mid, steps[n]);
    if k < |before| {
      EntriesAreTheJobs(sys, steps[..n], k);
    }
  }

  lemma TasksStay(sys: Sys, step: Step)
    requires Next(sys, step).Some?
    ensures var later := Next(sys, step).value.db.jobs;
            |sys.db.jobs| <= |later| && forall i :: 0 <= i < |sys.db.jobs| ==> later[i].task == sys.db.jobs[i].task
  {
    if step.RunStep? {
      RanOnlyJob(sys.db, Held(sys, step.worker)[0], step.env);
    }
  }

  /** An attempt that raises changes nothing but the queue fields of its own job. */
  lemma RaisedAttemptIsIsolated(sys: Sys, worker: Id, env: Env)
    requires Exclusive(sys) && Next(sys, RunStep(worker, env)).Some?
    requires Effect(sys.db, sys.db.jobs[Held(sys, worker)[0]].task, env).None?
    ensures var id, db := Held(sys, worker)[0], Next(sys, RunStep(worker, env)).value.db;
            && Business(db) == Business(sys.db)
            && |db.jobs| == |sys.db.jobs|
            && (forall i :: 0 <= i < |db.jobs| && i != id ==> db.jobs[i] == sys.db.jobs[i])
            && db.jobs[id].task == sys.db.jobs[id].task
            && db.jobs[id].attempts == sys.db.jobs[id].attempts + 1
            && (db.jobs[id].status.Failed? || (db.jobs[id].status.Pending? && db.jobs[id].runAt > env.now))
  {
    RanOnlyJob(sys.db, Held(sys, worker)[0], env);
    BackoffMonotone(0, sys.db.jobs[Held(sys, worker)[0]].attempts + 1);
  }
}
