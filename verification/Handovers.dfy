/** What each handler enqueues when it returns (src/app/integration/sync.py:205-231,
    src/app/integration/jobs.py:40-56, src/app/observation/jobs.py:21-34,
    src/app/analysis/rules.py:387-412): which jobs, for whom, due when. */
module Handovers {
  import opened Basics
  import opened Tables
  import opened Rules
  import opened AggregateProps
  import opened Aggregates
  import opened Detection
  import opened FigureProps
  import opened RecordProps
  import opened Worker
  import opened Chains

  /** A job that nobody has attempted: pending, with five attempts to go. */
  function Untried(task: Task, runAt: int, watermark: nat): Job {
    Job(task, runAt, Pending, 0, 5, None, None, None, watermark)
  }

  /** The job asks to explain an existing finding of the enterprise, at once. */
  predicate AsksToExplain(j: Job, findings: seq<Finding>, ent: Id, now: int, watermark: nat) {
    && j.task.GenerateExplanation? && j.task.ent == ent
    && j.task.finding < |findings| && findings[j.task.finding].ent == ent
    && j == Untried(j.task, now, watermark)
  }

  ghost predicate OnlyAsks(b: Book, after: Book, ent: Id, now: int, watermark: nat) {
    && b.jobs <= after.jobs && |b.findings| <= |after.findings|
    && forall i :: |b.jobs| <= i < |after.jobs| ==> AsksToExplain(after.jobs[i], after.findings, ent, now, watermark)
  }

  lemma {:induction false} DetectionAsks(b: Book, signals: seq<Signal>, ent: Id, now: int, cs: seq<Candidate>)
    ensures OnlyAsks(b, AppliedAll(b, signals, ent, now, cs).book, ent, now, |signals|)
  {
    if cs != [] {
      var n := |cs| - 1;
      DetectionAsks(b, signals, ent, now, cs[..n]);
      var mid := AppliedAll(b, signals, ent, now, cs[..n]).book;
      AppliedAsks(mid, signals, ent, now, cs[n]);
    }
  }

  lemma AppliedAsks(b: Book, signals: seq<Signal>, ent: Id, now: int, c: Candidate)
    ensures OnlyAsks(b, Applied(b, signals, ent, now, c), ent, now, |signals|)
    ensures b.findings <= Applied(b, signals, ent, now, c).findings
  {
  }

  lemma DetectionEnqueues(db: Db, ent: Id, now: int)
    ensures OnlyAsks(BookOf(db), BookOf(DetectedDb(db, ent, now)), ent, now, |db.signals|)
  {
    DetectionAsks(BookOf(db), db.signals, ent, now, Candidates(db.rows, db.aggregates, ent, now));
  }

  /** A synchronisation that logged signals enqueues the recomputation of the items they name, and
      an observation then its own next run, one interval ahead. */
  ghost predicate ObservationEnqueues(db: Db, after: Db, ent: Id, source: Id, now: int) {
    && db.signals <= after.signals && source < |db.sources|
    && var next := Untried(ObserveSource(ent, source), now + db.sources[source].interval * 1_000_000, |after.signals|);
       after.jobs ==
       if after.signals == db.signals then db.jobs + [next]
       else
         var touched := ItemsIn(after.signals[|db.signals|..]);
         db.jobs + [Untried(RecomputeAggregates(ent, touched), now, |after.signals|), next]
  }

  lemma ObserveEnqueues(db: Db, ent: Id, source: Id, env: Env)
    requires Effect(db, ObserveSource(ent, source), env).Some?
    ensures ObservationEnqueues(db, Effect(db, ObserveSource(ent, source), env).value, ent, source, env.now)
  {
    SyncLeaves(db, ent, source, env.intake, env.now);
  }

  /** A returning handler enqueues: of an observation, its next run after at most one recomputation;
      of a recomputation, one detection, due at once; of a detection, explanations of findings of its
      enterprise, due at once; of any other task, nothing. */
  lemma HandlersEnqueue(db: Db, task: Task, env: Env)
    requires Effect(db, task, env).Some?
    ensures var after := Effect(db, task, env).value;
            match task
            case ObserveSource(ent, source) => ObservationEnqueues(db, after, ent, source, env.now)
            case RecomputeAggregates(ent, _) =>
              after.jobs == db.jobs + [Untried(DetectRisks(ent), env.now, |db.signals|)]
            case DetectRisks(ent) => OnlyAsks(BookOf(db), BookOf(after), ent, env.now, |db.signals|)
            case _ => after.jobs == db.jobs
  {
    match task
    case ObserveSource(ent, source) => ObserveEnqueues(db, ent, source, env);
    case DetectRisks(ent) => DetectionEnqueues(db, ent, env.now);
    case _ =>
  }

  // ---- when a handler raises, and what it writes ----------------------------------------------------------

  /** An item of the enterprise in scope, an empty scope meaning all, has stock and a figure that its
      column cannot hold. */
  ghost predicate CannotRecompute(rows: seq<Row>, ent: Id, items: set<Id>) {
    exists x: Id :: x < |rows| && rows[x].entity.Item? && rows[x].ent == ent && (items == {} || x in items)
                    && TooBig(rows, x)
  }

  lemma BlockedMeans(rows: seq<Row>, ent: Id, items: set<Id>)
    ensures Blocked(rows, ent, items) <==> CannotRecompute(rows, ent, items)
  {
    forall x: Id
      ensures Overflows(rows, x) <==> TooBig(rows, x)
    {
      OverflowMeans(rows, x);
    }
  }

  /** When the handler of a task raises: observing, when the source is not the enterprise's, the
      fetch fails or a line is refused; recomputing, when a figure in scope does not fit; explaining,
      when the finding is not the enterprise's; suggesting, when it fails; any unknown kind. */
  lemma HandlerRaises(db: Db, task: Task, env: Env)
    ensures Effect(db, task, env).None? <==>
            match task
            case ObserveSource(ent, source) => ObservationFails(db, ent, source, env)
            case RecomputeAggregates(ent, items) => CannotRecompute(db.rows, ent, items)
            case DetectRisks(_) => false
            case GenerateExplanation(ent, finding) =>
              finding >= |db.findings| || db.findings[finding].ent != ent
            case SuggestMapping(_, _) => !env.suggested
            case Noop => false
            case UnknownKind(_) => true
  {
    match task
    case ObserveSource(ent, source) => ObservationRaises(db, ent, source, env);
    case RecomputeAggregates(ent, items) =>
      RecomputeRaises(db.aggregates, db.rows, ent, ItemsInScope(db.rows, ent, items), env.now);
      BlockedMeans(db.rows, ent, items);
    case _ =>
  }

  /** The tables that a handler writes: canonical data by observing, aggregates by recomputing,
      findings and their evidence by detecting, explanations by explaining. */
  lemma HandlerWrites(db: Db, task: Task, env: Env)
    requires Effect(db, task, env).Some?
    ensures var after := Effect(db, task, env).value;
            match task
            case ObserveSource(_, _) =>
              after == db.(rows := after.rows, signals := after.signals, sources := after.sources, gaps := after.gaps,
                           jobs := after.jobs)
            case RecomputeAggregates(_, _) => after == db.(aggregates := after.aggregates, jobs := after.jobs)
            case DetectRisks(_) =>
              after == db.(findings := after.findings, links := after.links, jobs := after.jobs)
            case GenerateExplanation(_, _) =>
              after == db.(findings := after.findings, explanations := after.explanations, gaps := after.gaps,
                           audits := after.audits)
            case _ => after == db
  {
    if task.ObserveSource? {
      SyncLeaves(db, task.ent, task.source, env.intake, env.now);
    }
  }
}
