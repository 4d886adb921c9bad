/** The interactive transactions that touch the pipeline's tables: dismissing a risk
    (src/app/api/routers/risks.py:174-201), checking a source's connection
    (src/app/integration/service.py:195-226) and mapping suggestions that find the model
    unavailable (src/app/api/routers/data_sources.py:249-267). */
module Api {
  import opened Basics
  import opened Tables
  import opened Gaps
  import opened SyncSpec
  import opened Explain

  predicate Dismissible(db: Db, ent: Id, finding: Id, reason: string) {
    reason != "" && Known(db, ent, finding) && !Terminal(db.findings[finding])
  }

  function DismissedDb(db: Db, ent: Id, finding: Id, reason: string, user: Id, now: int): Option<Db> {
    if !Dismissible(db, ent, finding, reason) then None
    else
      var f := db.findings[finding].(status := Dismissed, resolvedAt := Some(now),
                                     dismissal := Some(Dismissal(reason, now, user)));
      Some(db.(findings := db.findings[finding := f],
               audits := db.audits + [Audit(ent, RiskDismissedEvent(finding, reason, user))]))
  }

  datatype DismissResult = Invalid | Missing | Conflict | Ok

  method DismissRisk(s: Session, ent: Id, finding: Id, reason: string, user: Id, now: int) returns (r: DismissResult)
    requires s.db == s.committed
    modifies s
    ensures r.Ok? <==> DismissedDb(old(s.db), ent, finding, reason, user, now).Some?
    ensures r.Ok? ==> Some(s.db) == DismissedDb(old(s.db), ent, finding, reason, user, now)
    ensures !r.Ok? ==> s.db == old(s.db)
    ensures r.Invalid? <==> reason == ""
    ensures r.Missing? <==> reason != "" && (finding >= |old(s.db.findings)| || old(s.db.findings)[finding].ent != ent)
    ensures r.Conflict? ==> finding < |old(s.db.findings)| &&
                            (|| old(s.db.findings)[finding].status.Resolved?
                             || old(s.db.findings)[finding].status.Dismissed?)
    ensures r.Ok? ==> finding < |old(s.db.findings)| && var f := old(s.db.findings)[finding];
                      && (f.status.Open? || f.status.Recommended? || f.status.Actioned?)
                      && s.db == old(s.db).(
                        findings := old(s.db.findings)[finding := f.(
                          status := Dismissed, resolvedAt := Some(now),
                          dismissal := Some(Dismissal(reason, now, user)))],
                        audits := old(s.db.audits) + [Audit(ent, RiskDismissedEvent(finding, reason, user))])
    ensures s.committed == s.db
  {
    if reason == "" {
      return Invalid;
    }
    if !Known(s.db, ent, finding) {
      return Missing;
    }
    var f := s.db.findings[finding];
    if Terminal(f) {
      return Conflict;
    }
    f := f.(status := Dismissed, dismissal := Some(Dismissal(reason, now, user)), resolvedAt := Some(now));
    s.db := s.db.(findings := s.db.findings[finding := f]);
    s.db := s.db.(audits := s.db.audits + [Audit(ent, RiskDismissedEvent(finding, reason, user))]);
    s.Commit();
    r := Ok;
  }

  /** The outcome of testing a connection: its connector cannot be built, or it answers, or it
      does not. */
  datatype Connection = NotBuilt | Passed | Failing(error: string)

  /** The tables after a test; None when it raises: unknown source, or no connector. */
  function CheckedDb(db: Db, ent: Id, source: Id, result: Connection, now: int): Option<Db> {
    if !Owns(db, ent, source) || result.NotBuilt? then None
    else
      var src := db.sources[source].(lastCheckAt := Some(now),
                                     lastError := if result.Passed? then None else Some(result.error),
                                     health := if result.Passed? then Available else Unavailable);
      Some(db.(sources := db.sources[source := src],
               gaps := if result.Passed? then Closed(db.gaps, SourceGap(ent, source), now)
                       else Opened(db.gaps, SourceGap(ent, source), now)))
  }

  method CheckConnection(s: Session, ent: Id, source: Id, result: Connection, now: int) returns (ok: bool)
    modifies s`db
    ensures ok <==> CheckedDb(old(s.db), ent, source, result, now).Some?
    ensures ok ==> Some(s.db) == CheckedDb(old(s.db), ent, source, result, now)
    ensures !ok ==> s.db == old(s.db)
    ensures ok <==> source < |old(s.db.sources)| && old(s.db.sources)[source].ent == ent && !result.NotBuilt?
    ensures ok ==> s.db == old(s.db).(sources := s.db.sources, gaps := s.db.gaps)
    ensures ok && result.Passed? ==>
              && s.db.sources == old(s.db.sources)[source := old(s.db.sources)[source].(
                   lastCheckAt := Some(now), lastError := None, health := Available)]
    ensures ok && result.Failing? ==>
              && s.db.sources == old(s.db.sources)[source := old(s.db.sources)[source].(
                   lastCheckAt := Some(now), lastError := Some(result.error), health := Unavailable)]
              && exists g :: 0 <= g < |s.db.gaps| && s.db.gaps[g].closedAt.None?
                   && s.db.gaps[g].key == GapKey(ent, SourceScope, SourceRow(source), SourceUnavailable)
  {
    if !Owns(s.db, ent, source) || result.NotBuilt? {
      return false;
    }
    var src := s.db.sources[source].(lastCheckAt := Some(now));
    if result.Passed? {
      src := src.(health := Available, lastError := None);
      s.db := s.db.(sources := s.db.sources[source := src]);
      CloseGap(s, SourceGap(ent, source), now);
    } else {
      src := src.(health := Unavailable, lastError := Some(result.error));
      s.db := s.db.(sources := s.db.sources[source := src]);
      var _ := OpenGap(s, SourceGap(ent, source), now);
    }
    ok := true;
  }

  const MAPPING_CAPABILITY := "proc.inventory.observe"

  /** The tables after mapping suggestions found the model unavailable: only the fail-safe, which
      the router commits. */
  function SuggestionFailedDb(db: Db, ent: Id, source: Id, error: string, now: int): Option<Db> {
    if Owns(db, ent, source) then Some(FailSafe(db, ent, MAPPING_CAPABILITY, error, now)) else None
  }

  /** It is recorded once, and the gap of observing the inventory is open. */
  lemma SuggestionFailedMeans(db: Db, ent: Id, source: Id, error: string, now: int)
    requires SuggestionFailedDb(db, ent, source, error, now).Some?
    ensures var after := SuggestionFailedDb(db, ent, source, error, now).value;
            && after == db.(gaps := after.gaps,
                            audits := db.audits + [Audit(ent, AiUnavailableEvent("proc.inventory.observe", error))])
            && exists g: Id :: g < |after.gaps| && after.gaps[g].closedAt.None?
                 && after.gaps[g].key ==
                    GapKey(ent, CapabilityScope, CapabilityKey("proc.inventory.observe"), AiUnavailable)
  {
    var key := AiGap(ent, MAPPING_CAPABILITY);
    var open := Current(db.gaps, key);
    assert IsOpen(Opened(db.gaps, key, now), key, if open.Some? then open.value else |db.gaps|);
  }
}
