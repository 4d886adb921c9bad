/** The invariant of the whole pipeline, over every run of any number of workers, and what
    follows from it for findings. */
module Invariant {
  import opened Basics
  import opened Tables
  import opened Gaps
  import opened SyncProps
  import opened Aggregates
  import opened AggregateProps
  import opened Detection
  import opened DetectionProps
  import opened Explain
  import opened Worker
  import opened Api
  import opened Pipeline
  import opened Lifetimes
  import opened ExplainOnce
  import opened Chains
  import opened Monitoring

  ghost predicate DbInv(db: Db) {
    && DataInv(db.rows, db.signals)
    && CoverInv(db.rows, db.signals, db.jobs)
    && OnePerItem(db.aggregates)
    && BookInv(BookOf(db), db.signals)
    && ExplainInv(db.findings, db.jobs, db.explanations)
    && OneOpenPerKey(db.gaps)
    && HealthAgrees(db)
    && JobsOk(db.jobs)
  }

  ghost predicate SysInv(sys: Sys) {
    Exclusive(sys) && DbInv(sys.db)
  }

  /** A new deployment: sources that were never checked, and nothing else. */
  lemma FreshSystem(sources: seq<Source>)
    requires forall i :: 0 <= i < |sources| ==> sources[i].health.Unavailable? && sources[i].lastCheckAt.None?
    ensures SysInv(Sys(Db(sources, [], [], [], [], [], [], [], [], []), map[]))
  {
  }

  // ---- the analysis tables ---------------------------------------------------------------------------

  /** How a finding may change: its AI status freely, and once from ongoing to dismissed. */
  ghost predicate Evolves(f: Finding, g: Finding) {
    && SameCondition(f, g) && f.severity == g.severity && f.detectedAt == g.detectedAt
    && (Terminal(f) ==> g == f.(aiStatus := g.aiStatus))
    && (!Terminal(f) ==> g == f.(aiStatus := g.aiStatus) || g.status.Dismissed?)
  }

  ghost predicate FindingsEvolve(findings: seq<Finding>, later: seq<Finding>) {
    |findings| <= |later| && forall i :: 0 <= i < |findings| ==> Evolves(findings[i], later[i])
  }

  lemma EvolvedKeepsBook(b: Book, signals: seq<Signal>, findings: seq<Finding>, more: seq<Signal>, jobs: seq<Job>)
    requires BookInv(b, signals) && signals <= more
    requires |findings| == |b.findings| && FindingsEvolve(b.findings, findings)
    ensures BookInv(Book(findings, b.links, jobs), more)
  {
  }

  lemma DetectionOnBook(db: Db, ent: Id, now: int)
    requires BookInv(BookOf(db), db.signals)
    ensures BookInv(BookOf(DetectedDb(db, ent, now)), db.signals)
    ensures FindingsEvolve(db.findings, DetectedDb(db, ent, now).findings) && db.links <= DetectedDb(db, ent, now).links
  {
    AllHandled(BookOf(db), db.signals, ent, now, Candidates(db.rows, db.aggregates, ent, now));
  }

  lemma ExplainingOnBook(db: Db, ent: Id, finding: Id, provider: Provider, now: int)
    requires BookInv(BookOf(db), db.signals) && OneOpenPerKey(db.gaps) && Known(db, ent, finding)
    ensures var after := ExplainedDb(db, ent, finding, provider, now);
            && BookInv(BookOf(after), after.signals) && FindingsEvolve(db.findings, after.findings)
            && after.links == db.links
  {
    var after := ExplainedDb(db, ent, finding, provider, now);
    GroundedOrClean(db, ent, finding, provider, now);
    EvolvedKeepsBook(BookOf(db), db.signals, after.findings, after.signals, after.jobs);
  }

  lemma EffectOnBook(db: Db, task: Task, env: Env)
    requires DataInv(db.rows, db.signals) && OneOpenPerKey(db.gaps)
    requires BookInv(BookOf(db), db.signals) && Effect(db, task, env).Some?
    ensures var after := Effect(db, task, env).value;
            && BookInv(BookOf(after), after.signals) && FindingsEvolve(db.findings, after.findings)
            && db.links <= after.links
  {
    match task
    case DetectRisks(ent) => DetectionOnBook(db, ent, env.now);
    case GenerateExplanation(ent, finding) => ExplainingOnBook(db, ent, finding, env.provider, env.now);
    case _ =>
      var after := Effect(db, task, env).value;
      EffectKeepsData(db, task, env);
      EvolvedKeepsBook(BookOf(db), db.signals, after.findings, after.signals, after.jobs);
  }

  lemma RunOnBook(db: Db, id: Id, env: Env)
    requires DataInv(db.rows, db.signals) && OneOpenPerKey(db.gaps) && BookInv(BookOf(db), db.signals)
    requires id < |db.jobs|
    ensures var after := Ran(db, id, env);
            && BookInv(BookOf(after), after.signals) && FindingsEvolve(db.findings, after.findings)
            && db.links <= after.links
  {
    match Effect(db, db.jobs[id].task, env)
    case None =>
    case Some(effect) => EffectOnBook(db, db.jobs[id].task, env);
  }

  /** The other steps leave links and signals alone, and at most dismiss a finding. */
  lemma OtherStepsOnFindings(sys: Sys, step: Step)
    requires Next(sys, step).Some? && !step.RunStep?
    ensures var db := Next(sys, step).value.db;
            && db.links == sys.db.links && db.signals == sys.db.signals
            && |db.findings| == |sys.db.findings| && FindingsEvolve(sys.db.findings, db.findings)
  {
  }

  lemma StepOnBook(sys: Sys, step: Step)
    requires DbInv(sys.db) && Next(sys, step).Some?
    ensures var db := Next(sys, step).value.db;
            && BookInv(BookOf(db), db.signals) && FindingsEvolve(sys.db.findings, db.findings)
            && sys.db.links <= db.links
  {
    match step
    case RunStep(w, env) => RunOnBook(sys.db, Held(sys, w)[0], env);
    case _ =>
      var db := Next(sys, step).value.db;
      OtherStepsOnFindings(sys, step);
      EvolvedKeepsBook(BookOf(sys.db), sys.db.signals, db.findings, db.signals, db.jobs);
  }

  // ---- every step keeps the invariant ------------------------------------------------------------------

  lemma StepOnData(sys: Sys, step: Step)
    requires DataInv(sys.db.rows, sys.db.signals) && Next(sys, step).Some?
    ensures var db := Next(sys, step).value.db;
            DataInv(db.rows, db.signals) && RowsGrow(sys.db.rows, db.rows) && sys.db.signals <= db.signals
  {
    if step.RunStep? && Effect(sys.db, sys.db.jobs[Held(sys, step.worker)[0]].task, step.env).Some? {
      EffectKeepsData(sys.db, sys.db.jobs[Held(sys, step.worker)[0]].task, step.env);
    }
  }

  lemma StepOnAggregates(sys: Sys, step: Step)
    requires OnePerItem(sys.db.aggregates) && Next(sys, step).Some?
    ensures OnePerItem(Next(sys, step).value.db.aggregates)
  {
    if step.RunStep? {
      var task := sys.db.jobs[Held(sys, step.worker)[0]].task;
      if task.RecomputeAggregates? && Effect(sys.db, task, step.env).Some? {
        RecomputeEffect(sys.db.aggregates, sys.db.rows, task.ent, ItemsInScope(sys.db.rows, task.ent, task.items),
            step.env.now, 0);
      }
    }
  }

  lemma SysInvKept(sys: Sys, step: Step)
    requires SysInv(sys) && Next(sys, step).Some?
    ensures SysInv(Next(sys, step).value)
  {
    StepOnData(sys, step);
    CoverKept(sys, step);
    StepOnAggregates(sys, step);
    StepOnBook(sys, step);
    ExplainInvKept(sys, step);
    GapsKept(sys, step);
    HealthAgreesKept(sys, step);
    JobsOkKept(sys, step);
    ExclusiveKept(sys, step);
  }

  lemma FindingsEvolveOn(a: seq<Finding>, b: seq<Finding>, c: seq<Finding>)
    requires FindingsEvolve(a, b) && FindingsEvolve(b, c)
    ensures FindingsEvolve(a, c)
  {
    forall i | 0 <= i < |a|
      ensures Evolves(a[i], c[i])
    {
      assert Evolves(a[i], b[i]) && Evolves(b[i], c[i]);
    }
  }

  /** In every run: one row per key and a signal log that replays every watched value; every
      signal covered by a recomputation; one aggregate per item; one ongoing finding per
      condition with sound, duplicate-free evidence; one explanation per finding; one open gap
      per key, agreeing with the sources' health; jobs held by at most one worker. Rows,
      signals, findings and links are never dropped, a terminal finding changes no more (but for its
      AI status), and no finding ever changes its severity. */
  lemma {:induction false} RunsKeepInvariant(sys: Sys, steps: seq<Step>)
    requires SysInv(sys) && Exec(sys, steps).Some?
    ensures var last := Exec(sys, steps).value;
            && SysInv(last)
            && RowsGrow(sys.db.rows, last.db.rows)
            && sys.db.signals <= last.db.signals
            && FindingsEvolve(sys.db.findings, last.db.findings)
            && sys.db.links <= last.db.links
  {
    if steps != [] {
      var n := |steps| - 1;
      var mid := Exec(sys, steps[..n]).value;
      RunsKeepInvariant(sys, steps[..n]);
      SysInvKept(mid, steps[n]);
      StepOnData(mid, steps[n]);
      StepOnBook(mid, steps[n]);
      FindingsEvolveOn(sys.db.findings, mid.db.findings, Exec(sys, steps).value.db.findings);
    }
  }

  // ---- dismissal ---------------------------------------------------------------------------------------

  /** When the condition of a dismissed finding is seen again it becomes a new finding; the
      dismissed one stays as it is. */
  lemma RecurrenceIsNew(db: Db, ent: Id, finding: Id, reason: string, user: Id, at: int, now: int)
    requires OneOngoing(db.findings) && DismissedDb(db, ent, finding, reason, user, at).Some?
    ensures var dismissed := DismissedDb(db, ent, finding, reason, user, at).value.findings;
            var c := ConditionOf(db.findings[finding]);
            && ListedAs(dismissed, ent, c) == |dismissed|
            && Listed(dismissed, ent, c, now) == dismissed + [NewFinding(ent, c, now)]
  {
    var dismissed := DismissedDb(db, ent, finding, reason, user, at).value.findings;
    var c := ConditionOf(db.findings[finding]);
    forall i: Id | i < |dismissed|
      ensures !Ongoing(dismissed, ent, c, i)
    {
      if i != finding && Ongoing(dismissed, ent, c, i) {
        assert SameCondition(db.findings[i], db.findings[finding]);
      }
    }
    assert FindOngoing(dismissed, ent, c).None?;
  }

  /** Dismissing does not stop an explanation that is already queued: an attempt after the
      dismissal succeeds exactly when it would have succeeded before, so a terminal finding
      can still become ready. */
  lemma DismissalKeepsExplaining(db: Db, ent: Id, finding: Id, reason: string, user: Id, at: int, provider: Provider,
                                 now: int)
    requires DismissedDb(db, ent, finding, reason, user, at).Some?
    ensures var dismissed := DismissedDb(db, ent, finding, reason, user, at).value;
            && Known(dismissed, ent, finding) && Terminal(dismissed.findings[finding])
            && ExplainedDb(dismissed, ent, finding, provider, now).findings[finding].aiStatus ==
               ExplainedDb(db, ent, finding, provider, now).findings[finding].aiStatus
            && ExplainedDb(dismissed, ent, finding, provider, now).explanations ==
               ExplainedDb(db, ent, finding, provider, now).explanations
  {
    var dismissed := DismissedDb(db, ent, finding, reason, user, at).value;
    assert EvidenceOf(dismissed, finding) == EvidenceOf(db, finding);
  }
}
