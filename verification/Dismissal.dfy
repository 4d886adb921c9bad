/** What can still happen to a terminal finding (src/app/api/routers/risks.py:174-201,
    src/app/analysis/explain.py:61-136): nothing, unless an explanation of it is queued. */
module Dismissal {
  import opened Basics
  import opened Folds
  import opened Tables
  import opened Schema
  import opened JobQueue
  import opened Gaps
  import opened SyncSpec
  import opened SyncProps
  import opened Rules
  import opened Detection
  import opened DetectionProps
  import opened Explain
  import opened Worker
  import opened Pipeline
  import opened Monitoring
  import opened Lifetimes
  import opened Aggregates
  import opened ExplainOnce
  import opened Journal
  import opened Chains
  import opened Invariant

  // ---- exactly when a terminal finding changes ---------------------------------------------------------

  lemma NotQueuedLater(jobs: seq<Job>, later: seq<Job>, f: Id)
    requires !Queued(jobs, f) && |jobs| <= |later|
    requires forall i :: 0 <= i < |jobs| ==> later[i].task == jobs[i].task && (Active(later[i]) ==> Active(jobs[i]))
    requires forall i :: |jobs| <= i < |later| ==> !later[i].task.GenerateExplanation?
    ensures !Queued(later, f)
  {
    forall i | 0 <= i < |later|
      ensures !(Explains(later[i], f) && Active(later[i]))
    {
      assert i < |jobs| ==> !(Explains(jobs[i], f) && Active(jobs[i]));
    }
  }

  /** Detection lists and requests ongoing findings only. */
  lemma {:induction false} DetectionPassesTerminal(b: Book, signals: seq<Signal>, ent: Id, now: int,
          cs: seq<Candidate>, f: Id)
    requires f < |b.findings| && Terminal(b.findings[f]) && !Queued(b.jobs, f)
    ensures var after := AppliedAll(b, signals, ent, now, cs).book;
            f < |after.findings| && after.findings[f] == b.findings[f] && !Queued(after.jobs, f)
  {
    if cs != [] {
      var n := |cs| - 1;
      DetectionPassesTerminal(b, signals, ent, now, cs[..n], f);
      var d := AppliedAll(b, signals, ent, now, cs[..n]).book;
      var id := ListedAs(d.findings, ent, cs[n]);
      var listed := Listed(d.findings, ent, cs[n], now);
      assert id != f;
      RequestedOther(listed[id], id, d.jobs, now, |signals|, f);
    }
  }

  lemma RequestedOther(g: Finding, id: Id, jobs: seq<Job>, now: int, watermark: nat, f: Id)
    requires !Queued(jobs, f) && id != f
    ensures !Queued(Requested(g, id, jobs, now, watermark), f)
  {
    var after := Requested(g, id, jobs, now, watermark);
    forall i | 0 <= i < |after|
      ensures !(Explains(after[i], f) && Active(after[i]))
    {
      assert i < |jobs| ==> !(Explains(jobs[i], f) && Active(jobs[i]));
    }
  }

  lemma RunPassesTerminal(db: Db, id: Id, env: Env, f: Id)
    requires id < |db.jobs| && db.jobs[id].status.Running?
    requires f < |db.findings| && Terminal(db.findings[f]) && !Queued(db.jobs, f)
    ensures var after := Ran(db, id, env);
            f < |after.findings| && after.findings[f] == db.findings[f] && !Queued(after.jobs, f)
  {
    var task, after := db.jobs[id].task, Ran(db, id, env);
    RanOnlyJob(db, id, env);
    if task.DetectRisks? {
      DetectionPassesTerminal(BookOf(db), db.signals, task.ent, env.now,
                              Candidates(db.rows, db.aggregates, task.ent, env.now), f);
      var detected := DetectedDb(db, task.ent, env.now).jobs;
      DetectionAppendsJobs(db, task.ent, env.now);
      assert after.jobs == detected[id := after.jobs[id]];
      NotQueuedLater(detected, after.jobs, f);
    } else if task.GenerateExplanation? {
      assert Explains(db.jobs[id], task.finding) && Active(db.jobs[id]);
      ExplainingRun(db, id, env);
      NotQueuedLater(db.jobs, after.jobs, f);
    } else {
      OthersRequestNothing(db, id, env);
      NotQueuedLater(db.jobs, after.jobs, f);
    }
  }

  /** An attempt at an explanation changes no other finding and adds no job. */
  lemma ExplainingRun(db: Db, id: Id, env: Env)
    requires id < |db.jobs| && db.jobs[id].task.GenerateExplanation?
    ensures var after, f := Ran(db, id, env), db.jobs[id].task.finding;
            && |after.jobs| == |db.jobs| && |after.findings| == |db.findings|
            && forall g :: 0 <= g < |db.findings| && g != f ==> after.findings[g] == db.findings[g]
  {
    var task := db.jobs[id].task;
    if Known(db, task.ent, task.finding) {
      ExplainingOnStatus(db, task.ent, task.finding, env.provider, env.now);
      ExplainingKeepsJobs(db, task.ent, task.finding, env);
    }
  }

  lemma StepPassesTerminal(sys: Sys, step: Step, f: Id)
    requires Exclusive(sys) && Next(sys, step).Some?
    requires f < |sys.db.findings| && Terminal(sys.db.findings[f]) && !Queued(sys.db.jobs, f)
    ensures var db := Next(sys, step).value.db;
            f < |db.findings| && db.findings[f] == sys.db.findings[f] && !Queued(db.jobs, f)
  {
    var db := Next(sys, step).value.db;
    match step
    case RunStep(w, env) => RunPassesTerminal(sys.db, Held(sys, w)[0], env, f);
    case ClaimStep(w, now, busy, limit, ids) =>
      forall i | 0 <= i < |sys.db.jobs|
        ensures Active(db.jobs[i]) ==> Active(sys.db.jobs[i])
      {
        SelectedIsDue(sys.db.jobs, now, busy, limit, ids, i);
      }
      NotQueuedLater(sys.db.jobs, db.jobs, f);
    case _ => NotQueuedLater(sys.db.jobs, db.jobs, f);
  }

  /** A terminal finding of which no explanation is pending or running is the same after every
      run, down to its AI status. */
  lemma {:induction false} TerminalForEver(sys: Sys, steps: seq<Step>, f: Id)
    requires Exclusive(sys) && Exec(sys, steps).Some?
    requires f < |sys.db.findings| && Terminal(sys.db.findings[f]) && !Queued(sys.db.jobs, f)
    ensures var last := Exec(sys, steps).value;
            && Exclusive(last)
            && f < |last.db.findings| && last.db.findings[f] == sys.db.findings[f] && !Queued(last.db.jobs, f)
  {
    if steps != [] {
      var n := |steps| - 1;
      var mid := Exec(sys, steps[..n]).value;
      TerminalForEver(sys, steps[..n], f);
      ExclusiveKept(mid, steps[n]);
      StepPassesTerminal(mid, steps[n], f);
    }
  }

  /** A step changes a terminal finding exactly when it attempts that finding's explanation and
      the outcome differs from the AI status the finding has. */
  lemma TerminalChange(sys: Sys, step: Step, f: Id)
    requires SysInv(sys) && Next(sys, step).Some?
    requires f < |sys.db.findings| && Terminal(sys.db.findings[f])
    ensures var finding, db := sys.db.findings[f], Next(sys, step).value.db;
            && f < |db.findings|
            && (db.findings[f] != finding <==>
                  && Attempts(sys, step, f)
                  && ExplainedDb(sys.db, finding.ent, f, step.env.provider, step.env.now).findings[f].aiStatus
                     != finding.aiStatus)
  {
    StepOnBook(sys, step);
    var finding, db := sys.db.findings[f], Next(sys, step).value.db;
    assert Evolves(finding, db.findings[f]);
    if Attempts(sys, step, f) {
      var id := Held(sys, step.worker)[0];
      assert sys.db.jobs[id].task == GenerateExplanation(finding.ent, f);
    } else {
      StepOnStatus(sys, step, f);
    }
  }

  // ---- a dismissed finding can become ready ------------------------------------------------------------

  lemma {:induction false} LinkIsEvidence(links: seq<Link>, f: Id, k: Id)
    requires Link(f, k) in links
    ensures SignalEvidence(k) in SignalsOf(links, f)
  {
    var n := |links| - 1;
    assert links == links[..n] + [links[n]];
    if Link(f, k) in links[..n] {
      LinkIsEvidence(links[..n], f, k);
    }
  }

  /** A model that always cites the given evidence. */
  function Citing(e: Evidence): Provider {
    (call: nat) => Parsed(RiskExplanation("what", "why", [e], 0.5))
  }

  lemma CitingSucceeds(db: Db, ent: Id, f: Id, e: Evidence, now: int)
    requires Known(db, ent, f) && e in EvidenceOf(db, f)
    ensures ExplainedDb(db, ent, f, Citing(e), now).findings[f].aiStatus.AiReady?
  {
    var provider := Citing(e);
    assert provider(0).Parsed?;
    assert FirstParsed(provider, 1) == Some(0);
    assert FirstParsed(provider, 3) == Some(0) by {
      assert FirstParsed(provider, 2) == Some(0);
    }
    assert e in provider(0).value.dataUsed;
    SucceedsExactly(db, ent, f, provider, now);
  }

  function Below(n: nat): (ids: set<Id>)
    ensures forall i: Id :: i in ids <==> i < n
  {
    if n == 0 then {} else Below(n - 1) + {n - 1}
  }

  function ClaimThenDismiss(worker: Id, now: int, j: Id, others: set<Id>, ent: Id, f: Id, env: Env): seq<Step> {
    [ClaimStep(worker, now, others, 1, [j]), DismissStep(ent, f, "no longer relevant", 0, now), RunStep(worker, env)]
  }

  lemma ExecThree(sys: Sys, a: Step, b: Step, c: Step)
    requires Next(sys, a).Some? && Next(Next(sys, a).value, b).Some?
    ensures Exec(sys, [a, b, c]) == Next(Next(Next(sys, a).value, b).value, c)
  {
    ExecOne(sys, [], a);
    ExecOne(sys, [a], b);
    ExecOne(sys, [a, b], c);
    assert [] + [a] == [a] && [a] + [b] == [a, b] && [a, b] + [c] == [a, b, c];
  }

  /** Any pending job can be claimed on its own, the others being locked. */
  lemma ClaimAlone(jobs: seq<Job>, j: Id)
    requires j < |jobs| && jobs[j].status.Pending?
    ensures IsDueSelection(jobs, jobs[j].runAt, Below(|jobs|) - {j}, 1, [j])
  {
  }

  lemma AttemptMakesReady(db: Db, j: Id, f: Id, e: Evidence, env: Env)
    requires j < |db.jobs| && f < |db.findings| && db.jobs[j].task == GenerateExplanation(db.findings[f].ent, f)
    requires e in EvidenceOf(db, f) && env.provider == Citing(e)
    ensures var after := Ran(db, j, env).findings;
            f < |after| && after[f] == db.findings[f].(aiStatus := AiReady)
  {
    var ent := db.findings[f].ent;
    CitingSucceeds(db, ent, f, e, env.now);
    StatusOnly(db, ent, f, env.provider, env.now);
  }

  lemma StatusOnly(db: Db, ent: Id, f: Id, provider: Provider, now: int)
    requires Known(db, ent, f)
    ensures var after := ExplainedDb(db, ent, f, provider, now).findings;
            |after| == |db.findings| && after[f] == db.findings[f].(aiStatus := after[f].aiStatus)
  {
  }

  /** A finding whose explanation is pending and has evidence to cite. */
  ghost predicate Explainable(db: Db, j: Id, f: Id, e: Evidence) {
    && j < |db.jobs| && Explains(db.jobs[j], f) && db.jobs[j].status.Pending?
    && f < |db.findings| && !Terminal(db.findings[f]) && e in EvidenceOf(db, f)
  }

  /** The run was possible and left the finding both dismissed and ready. */
  ghost predicate DismissedAndReady(run: Option<Sys>, f: Id) {
    && run.Some? && f < |run.value.db.findings|
    && run.value.db.findings[f].status.Dismissed? && run.value.db.findings[f].aiStatus.AiReady?
  }

  lemma DismissThenRun(sys: Sys, worker: Id, j: Id, f: Id, e: Evidence, env: Env, ent: Id)
    requires Held(sys, worker) == [j] && j < |sys.db.jobs| && sys.db.jobs[j].task == GenerateExplanation(ent, f)
    requires Known(sys.db, ent, f) && !Terminal(sys.db.findings[f])
    requires e in EvidenceOf(sys.db, f) && env.provider == Citing(e)
    ensures var dismissed := Next(sys, DismissStep(ent, f, "no longer relevant", 0, sys.db.jobs[j].runAt));
            dismissed.Some? && DismissedAndReady(Next(dismissed.value, RunStep(worker, env)), f)
  {
    var dismissed := Next(sys, DismissStep(ent, f, "no longer relevant", 0, sys.db.jobs[j].runAt)).value;
    assert EvidenceOf(dismissed.db, f) == EvidenceOf(sys.db, f);
    AttemptMakesReady(dismissed.db, j, f, e, env);
  }

  /** Whenever an ongoing finding with evidence has a pending explanation, claiming it, dismissing
      the finding and then running the job leaves the finding dismissed and ready. */
  lemma DismissedBecomesReady(sys: Sys, worker: Id, j: Id, f: Id, e: Evidence, env: Env) returns (steps: seq<Step>)
    requires JobsKnown(sys.db.findings, sys.db.jobs) && Held(sys, worker) == []
    requires Explainable(sys.db, j, f, e) && env.provider == Citing(e)
    ensures |steps| == 3 && steps[0].ClaimStep? && steps[1].DismissStep? && steps[2].RunStep?
    ensures DismissedAndReady(Exec(sys, steps), f)
  {
    var now, ent := sys.db.jobs[j].runAt, sys.db.findings[f].ent;
    steps := ClaimThenDismiss(worker, now, j, Below(|sys.db.jobs|) - {j}, ent, f, env);
    ClaimAlone(sys.db.jobs, j);
    var claimed := Next(sys, steps[0]).value;
    assert sys.db.jobs[j].task == GenerateExplanation(ent, f);
    assert EvidenceOf(claimed.db, f) == EvidenceOf(sys.db, f);
    DismissThenRun(claimed, worker, j, f, e, env, ent);
    ExecThree(sys, steps[0], steps[1], steps[2]);
  }

  // ---- from detection to a dismissed, explained finding -----------------------------------------------

  lemma OngoingBefore(findings: seq<Finding>, later: seq<Finding>, ent: Id, c: Candidate, f: Id)
    requires findings <= later
    ensures f < |findings| && Ongoing(later, ent, c, f) ==> Ongoing(findings, ent, c, f)
  {
  }

  lemma NewFindingIsPending(db: Db, ent: Id, now: int, c: Candidate, f: Id)
    requires BookInv(BookOf(db), db.signals)
    requires forall i: Id :: i < |db.findings| ==> !Ongoing(db.findings, ent, c, i)
    requires Ongoing(DetectedDb(db, ent, now).findings, ent, c, f)
    ensures f >= |db.findings| && DetectedDb(db, ent, now).findings[f].aiStatus.AiPending?
  {
    var after := DetectedDb(db, ent, now).findings;
    DetectionExact(db, ent, now);
    OngoingBefore(db.findings, after, ent, c, f);
    assert MadeFrom(db.rows, db.aggregates, ent, now, after[f]);
  }

  lemma QueuedJob(jobs: seq<Job>, f: Id) returns (j: Id)
    requires Queued(jobs, f)
    ensures j < |jobs| && Explains(jobs[j], f) && Active(jobs[j])
  {
    j :| 0 <= j < |jobs| && Explains(jobs[j], f) && Active(jobs[j]);
  }

  /** Detecting a supported risk that has no ongoing finding lists one with evidence, and its
      explanation is pending. */
  lemma NewRiskQueued(db: Db, ent: Id, now: int, c: Candidate, k: Id) returns (f: Id, j: Id)
    requires BookInv(BookOf(db), db.signals) && JobsKnown(db.findings, db.jobs)
    requires c in Candidates(db.rows, db.aggregates, ent, now)
    requires forall i: Id :: i < |db.findings| ==> !Ongoing(db.findings, ent, c, i)
    requires k < |db.signals| && Supports(db.signals[k], ent, c)
    ensures var after := DetectedDb(db, ent, now);
            && |db.jobs| <= j < |after.jobs| && Explains(after.jobs[j], f) && after.jobs[j].status.Pending?
            && f < |after.findings| && !Terminal(after.findings[f]) && SignalEvidence(k) in EvidenceOf(after, f)
  {
    var cs, d := Candidates(db.rows, db.aggregates, ent, now), DetectedIn(db, ent, now);
    AllHandled(BookOf(db), db.signals, ent, now, cs);
    var n :| 0 <= n < |cs| && cs[n] == c;
    f := d.found[n];
    assert Handled(d.book, db.signals, ent, c, f);
    LinkIsEvidence(d.book.links, f, k);
    NewFindingIsPending(db, ent, now, c, f);
    j := QueuedJob(d.book.jobs, f);
    DetectedPending(db, ent, now);
  }

  /** Running job `d` detects a risk that signal `k` supports and that has no ongoing finding. */
  ghost predicate Detects(db: Db, d: Id, c: Candidate, k: Id, now: int) {
    && BookInv(BookOf(db), db.signals) && JobsKnown(db.findings, db.jobs)
    && d < |db.jobs| && db.jobs[d].task.DetectRisks?
    && c in Candidates(db.rows, db.aggregates, db.jobs[d].task.ent, now)
    && (forall i: Id :: i < |db.findings| ==> !Ongoing(db.findings, db.jobs[d].task.ent, c, i))
    && k < |db.signals| && Supports(db.signals[k], db.jobs[d].task.ent, c)
  }

  ghost predicate RiskDue(sys: Sys, worker: Id, d: Id, c: Candidate, k: Id, now: int) {
    Held(sys, worker) == [] && Detects(sys.db, d, c, k, now) && sys.db.jobs[d].status.Pending?
  }

  lemma DetectsOnceClaimed(db: Db, d: Id, c: Candidate, k: Id, now: int, worker: Id, at: int)
    requires Detects(db, d, c, k, now)
    ensures Detects(db.(jobs := Claimed(db.jobs, [d], worker, at)), d, c, k, now)
  {
  }

  function ClaimAndRun(sys: Sys, worker: Id, d: Id, env: Env): seq<Step>
    requires d < |sys.db.jobs|
  {
    [ClaimStep(worker, sys.db.jobs[d].runAt, Below(|sys.db.jobs|) - {d}, 1, [d]), RunStep(worker, env)]
  }

  lemma ClaimAndRunIs(sys: Sys, worker: Id, d: Id, env: Env)
    requires SysInv(sys) && Held(sys, worker) == []
    requires d < |sys.db.jobs| && sys.db.jobs[d].status.Pending?
    ensures var mid, claimed := Exec(sys, ClaimAndRun(sys, worker, d, env)),
                Claimed(sys.db.jobs, [d], worker, sys.db.jobs[d].runAt);
            && mid.Some? && SysInv(mid.value) && Held(mid.value, worker) == []
            && mid.value.db == Ran(sys.db.(jobs := claimed), d, env)
  {
    var steps := ClaimAndRun(sys, worker, d, env);
    ClaimAlone(sys.db.jobs, d);
    var claimed := Next(sys, steps[0]).value;
    SysInvKept(sys, steps[0]);
    SysInvKept(claimed, steps[1]);
    ExecOne(sys, [], steps[0]);
    ExecOne(sys, [steps[0]], steps[1]);
    assert [] + [steps[0]] == [steps[0]] && [steps[0]] + [steps[1]] == steps;
  }

  lemma DetectedExplainable(db: Db, d: Id, c: Candidate, k: Id, env: Env) returns (f: Id, j: Id)
    requires Detects(db, d, c, k, env.now)
    ensures Explainable(Ran(db, d, env), j, f, SignalEvidence(k))
  {
    var ent := db.jobs[d].task.ent;
    f, j := NewRiskQueued(db, ent, env.now, c, k);
    DetectionAppendsJobs(db, ent, env.now);
    assert EvidenceOf(Ran(db, d, env), f) == EvidenceOf(DetectedDb(db, ent, env.now), f);
  }

  /** The run was possible, its worker is idle, and the finding can be explained. */
  ghost predicate Prepared(run: Option<Sys>, worker: Id, j: Id, f: Id, e: Evidence) {
    && run.Some? && Held(run.value, worker) == [] && JobsKnown(run.value.db.findings, run.value.db.jobs)
    && Explainable(run.value.db, j, f, e)
  }

  lemma DetectingRun(sys: Sys, worker: Id, d: Id, c: Candidate, k: Id, env: Env) returns (f: Id, j: Id)
    requires SysInv(sys) && RiskDue(sys, worker, d, c, k, env.now)
    ensures Prepared(Exec(sys, ClaimAndRun(sys, worker, d, env)), worker, j, f, SignalEvidence(k))
  {
    ClaimAndRunIs(sys, worker, d, env);
    DetectsOnceClaimed(sys.db, d, c, k, env.now, worker, sys.db.jobs[d].runAt);
    f, j := DetectedExplainable(sys.db.(jobs := Claimed(sys.db.jobs, [d], worker, sys.db.jobs[d].runAt)), d, c, k, env);
  }

  lemma RunsCompose(sys: Sys, first: seq<Step>, rest: seq<Step>, f: Id)
    requires Exec(sys, first).Some? && DismissedAndReady(Exec(Exec(sys, first).value, rest), f)
    ensures DismissedAndReady(Exec(sys, first + rest), f)
  {
    FoldAppend(Stepper(), sys, first, rest);
  }

  lemma PreparedBecomesReady(sys: Sys, first: seq<Step>, worker: Id, j: Id, f: Id, e: Evidence, env: Env)
    returns (steps: seq<Step>)
    requires |first| == 2 && Prepared(Exec(sys, first), worker, j, f, e) && env.provider == Citing(e)
    ensures |steps| == 5 && steps[2].ClaimStep? && steps[3].DismissStep? && steps[4].RunStep?
    ensures DismissedAndReady(Exec(sys, steps), f)
  {
    var rest := DismissedBecomesReady(Exec(sys, first).value, worker, j, f, e, env);
    steps := first + rest;
    RunsCompose(sys, first, rest, f);
  }

  /** From every state in which detection is due and sees a supported risk without an ongoing
      finding, there is a run (detect, claim, dismiss, run) to a dismissed and ready finding. */
  lemma DismissedFindingExplained(sys: Sys, worker: Id, d: Id, c: Candidate, k: Id, env: Env)
    returns (steps: seq<Step>, f: Id)
    requires SysInv(sys) && RiskDue(sys, worker, d, c, k, env.now)
    requires env.provider == Citing(SignalEvidence(k))
    ensures |steps| == 5 && steps[2].ClaimStep? && steps[3].DismissStep? && steps[4].RunStep?
    ensures DismissedAndReady(Exec(sys, steps), f)
  {
    var j;
    f, j := DetectingRun(sys, worker, d, c, k, env);
    steps := PreparedBecomesReady(sys, ClaimAndRun(sys, worker, d, env), worker, j, f, SignalEvidence(k), env);
  }

  // ---- a run in which it happens ---------------------------------------------------------------------

  function SomeFeed(): Feed {
    Feed(0, 0, 0, Codec((t: Id, text: string) => text, (text: string) => None, (text: string) => None,
                        (text: string) => None, (text: string) => false), 0, (e: Entity, k: Key) => 0)
  }

  function StockOf(quantity: real): map<Column, Value> {
    map[ItemId := Ref(0), Quantity := Num(quantity)]
  }

  function Baseline(): seq<Row> {
    [NewRow(SomeFeed(), Item, map[Sku := Text("A")]), NewRow(SomeFeed(), StockLevel, StockOf(10.0))]
  }

  function Fallen(): seq<Row> {
    Baseline()[1 := UpdatedRow(SomeFeed(), StockLevel, Baseline()[1], StockOf(1.0))]
  }

  function Fall(): Signal {
    Signal(0, 0, StockChange, Some(0), None, StockLevel, Num(10.0), Num(1.0), 0, 1)
  }

  /** An item whose stock fell to a day's cover with the next delivery five days ahead; its
      aggregate is recomputed and detection is due. */
  function FallenStock(): Sys {
    var figures := Figures(None, Some(1.0), Some(5 * DAY), None, None, None);
    var recompute := Job(RecomputeAggregates(0, {0}), 0, Done, 0, 5, None, None, None, 1);
    Sys(Db([], Fallen(), [Fall()], [Aggregate(0, 0, figures, 0)], [], [], [], [], [],
           [recompute, NewJob(DetectRisks(0), 0, 1)]), map[])
  }

  lemma NewStock(quantity: real)
    requires Scaled(quantity)
    ensures Cell(NewRow(SomeFeed(), StockLevel, StockOf(quantity)).cols, Quantity) == Num(quantity)
  {
  }

  lemma NoStockYet(item: Row)
    requires item.entity.Item?
    ensures Find([item], StockLevel, 0, KeyOf(StockLevel, StockOf(10.0))).None?
  {
  }

  lemma BaselineData()
    ensures DataInv(Baseline(), []) && Cell(Baseline()[1].cols, Quantity) == Num(10.0)
  {
    var f, item := SomeFeed(), NewRow(SomeFeed(), Item, map[Sku := Text("A")]);
    RoundUnitsExact(100_000);
    NewStock(10.0);
    EmptyData();
    InsertKeepsData(f, Item, map[Sku := Text("A")], [], []);
    assert [] + [item] == [item];
    NoStockYet(item);
    InsertKeepsData(f, StockLevel, StockOf(10.0), [item], []);
    assert [item] + [NewRow(f, StockLevel, StockOf(10.0))] == Baseline();
  }

  lemma EmptyData()
    ensures DataInv([], [])
  {
  }

  lemma StockFound()
    ensures UniqueKeys(Baseline())
    ensures Find(Baseline(), StockLevel, 0, KeyOf(StockLevel, StockOf(1.0))) == Some(1)
  {
    BaselineData();
    assert HasKey(Baseline()[1], StockLevel, 0, KeyOf(StockLevel, StockOf(1.0)));
    FindIsThe(Baseline(), StockLevel, 0, KeyOf(StockLevel, StockOf(1.0)), 1);
  }

  lemma FallIsUpsert()
    ensures Upserted(SomeFeed(), StockLevel, StockOf(1.0), Baseline()) == Some(Upsertion(Fallen(), Some(Fall())))
  {
    StockFound();
    BaselineData();
    RoundUnitsExact(10_000);
    assert Storable(StockLevel, Written(StockLevel, StockOf(1.0)));
  }

  lemma FallenData()
    ensures DataInv(Fallen(), [Fall()]) && ItemKnown(Fallen(), Fall())
  {
    BaselineData();
    FallIsUpsert();
    UpsertKeepsData(SomeFeed(), StockLevel, StockOf(1.0), Baseline(), []);
    assert [] + [Fall()] == [Fall()];
  }

  lemma NothingListed(db: Db)
    requires db.findings == [] && db.links == [] && db.explanations == []
    requires forall i :: 0 <= i < |db.jobs| ==> !db.jobs[i].task.GenerateExplanation?
    ensures BookInv(BookOf(db), db.signals) && ExplainInv(db.findings, db.jobs, db.explanations)
  {
  }

  lemma FallenCovered(db: Db)
    requires db == FallenStock().db
    ensures CoverInv(db.rows, db.signals, db.jobs)
  {
    FallenData();
    assert Covers(db.jobs[0], Fall(), 0);
  }

  lemma NothingMonitored(db: Db)
    requires db.gaps == [] && db.sources == [] && |db.aggregates| <= 1
    requires forall i :: 0 <= i < |db.jobs| ==> JobOk(db.jobs[i])
    ensures OnePerItem(db.aggregates) && OneOpenPerKey(db.gaps) && HealthAgrees(db) && JobsOk(db.jobs)
  {
  }

  lemma FallenStockInv()
    ensures SysInv(FallenStock())
  {
    FallenData();
    FallenCovered(FallenStock().db);
    NothingListed(FallenStock().db);
    NothingMonitored(FallenStock().db);
  }

  /** The risk that detection sees there. */
  function ShortUntilDelivery(): Candidate {
    Candidate(InsufficientUntilNextDelivery, Some(0), None, High)
  }

  lemma RiskIsSeen()
    ensures var db := FallenStock().db;
            ShortUntilDelivery() in Candidates(db.rows, db.aggregates, 0, 0)
  {
    var db := FallenStock().db;
    var a := db.aggregates[0];
    assert WholeDays(5 * DAY - 0) == 5;
    assert NextDeliveryRule(0, a.figures, 0) == Some(ShortUntilDelivery());
    assert ShortUntilDelivery() in Optional(NextDeliveryRule(0, a.figures, 0));
    assert AggregateSeen(db.rows, 0, 0, a, ShortUntilDelivery());
    CandidatesAreSeen(db.rows, db.aggregates, 0, 0, ShortUntilDelivery());
  }

  lemma FallSupports()
    ensures Supports(Fall(), 0, ShortUntilDelivery())
  {
  }

  lemma FallenDetects(db: Db)
    requires db == FallenStock().db
    ensures Detects(db, 1, ShortUntilDelivery(), 0, 0)
  {
    NothingListed(db);
    FallSupports();
    RiskIsSeen();
  }

  lemma FallenRiskDue(worker: Id)
    ensures RiskDue(FallenStock(), worker, 1, ShortUntilDelivery(), 0, 0)
  {
    FallenDetects(FallenStock().db);
  }

  /** Hence a run from there in which a dismissed finding becomes ready. */
  lemma DismissedFindingExists(worker: Id, env: Env) returns (steps: seq<Step>, f: Id)
    requires env.now == 0 && env.provider == Citing(SignalEvidence(0))
    ensures SysInv(FallenStock()) && DismissedAndReady(Exec(FallenStock(), steps), f)
  {
    FallenStockInv();
    FallenRiskDue(worker);
    steps, f := DismissedFindingExplained(FallenStock(), worker, 1, ShortUntilDelivery(), 0, env);
  }
}
