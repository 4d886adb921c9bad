/** What the history of a field mapping says over every run of the service
    (src/app/integration/mapping_service.py, src/app/integration/mapping_ai.py). */
module MappingProps {
  import opened Basics
  import opened Folds
  import opened Mappings

  // ---- history -----------------------------------------------------------------------------------

  /** The snapshot after the last event of a mapping. */
  function LastSnapshot(events: seq<ChangeEvent>, id: Id): Option<Snapshot> {
    if events == [] then None
    else if events[|events| - 1].mapping == id then Some(events[|events| - 1].after)
    else LastSnapshot(events[..|events| - 1], id)
  }

  /** Who confirmed a mapping, as its events tell: the actor of its last confirmation, unless
      it was rejected since. */
  function Confirmer(events: seq<ChangeEvent>, id: Id): Option<Id> {
    if events == [] then None
    else
      var e := events[|events| - 1];
      if e.mapping == id && e.action.Confirming? then e.actor
      else if e.mapping == id && e.action.Rejecting? then None
      else Confirmer(events[..|events| - 1], id)
  }

  /** The status a mapping has by its events: edits do not count. */
  function Decided(events: seq<ChangeEvent>, id: Id): Option<Status> {
    if events == [] then None
    else
      var e := events[|events| - 1];
      if e.mapping != id || e.action.Editing? then Decided(events[..|events| - 1], id)
      else
        match e.action
        case Suggesting => Some(Suggested)
        case Confirming => Some(Confirmed)
        case Rejecting => Some(Rejected)
        case _ => Some(Retired)
  }

  /** Every event starts from the snapshot its predecessor left. */
  ghost predicate Chained(events: seq<ChangeEvent>) {
    forall k :: 0 <= k < |events| ==> events[k].before == LastSnapshot(events[..k], events[k].mapping)
  }

  ghost predicate Recorded(m: FieldMapping, id: Id, events: seq<ChangeEvent>) {
    && LastSnapshot(events, id) == Some(SnapshotOf(m))
    && Decided(events, id) == Some(m.status)
    && Confirmer(events, id) == m.confirmedBy
    && (m.status.Confirmed? ==> m.confirmedBy.Some?)
    && (m.confirmedBy.Some? <==> m.confirmedAt.Some?)
  }

  /** Only a person changes a mapping; the model at most suggests one. */
  ghost predicate HumanDecisions(events: seq<ChangeEvent>) {
    forall k :: 0 <= k < |events| && events[k].actor.None? ==> events[k].action.Suggesting?
  }

  ghost predicate RegistryInv(r: Registry) {
    && (forall k :: 0 <= k < |r.events| ==> r.events[k].mapping < |r.mappings|)
    && Chained(r.events)
    && HumanDecisions(r.events)
    && (forall id: Id :: id < |r.mappings| ==> Recorded(r.mappings[id], id, r.events))
  }

  lemma {:induction false} NoEvents(events: seq<ChangeEvent>, id: Id)
    requires forall k :: 0 <= k < |events| ==> events[k].mapping != id
    ensures LastSnapshot(events, id) == None && Confirmer(events, id) == None && Decided(events, id) == None
  {
    if events != [] {
      NoEvents(events[..|events| - 1], id);
    }
  }

  lemma ChainedMore(events: seq<ChangeEvent>, e: ChangeEvent)
    requires Chained(events) && e.before == LastSnapshot(events, e.mapping)
    ensures Chained(events + [e])
  {
    var more := events + [e];
    forall k | 0 <= k < |more|
      ensures more[k].before == LastSnapshot(more[..k], more[k].mapping)
    {
      assert more[..k] == events[..k];
      assert events[..|events|] == events;
    }
  }

  lemma RecordedMore(m: FieldMapping, id: Id, events: seq<ChangeEvent>, e: ChangeEvent)
    requires Recorded(m, id, events) && e.mapping != id
    ensures Recorded(m, id, events + [e])
  {
    assert (events + [e])[..|events|] == events;
  }

  lemma NewIsRecorded(m: FieldMapping, id: Id, events: seq<ChangeEvent>, e: ChangeEvent)
    requires forall k :: 0 <= k < |events| ==> events[k].mapping != id
    requires e.mapping == id && e.action.Suggesting? && e.after == SnapshotOf(m)
    requires m.status.Suggested? && m.confirmedBy.None? && m.confirmedAt.None?
    ensures Recorded(m, id, events + [e])
    ensures LastSnapshot(events, id).None?
  {
    NoEvents(events, id);
    assert (events + [e])[..|events|] == events;
  }

  lemma CreatedKeeps(r: Registry, m: FieldMapping, actor: Option<Id>, at: int)
    requires RegistryInv(r) && m.status.Suggested? && m.confirmedBy.None? && m.confirmedAt.None?
    ensures RegistryInv(Created(r, m, actor, at))
  {
    var after := Created(r, m, actor, at);
    var e := after.events[|r.events|];
    NewIsRecorded(m, |r.mappings|, r.events, e);
    ChainedMore(r.events, e);
    forall id: Id | id < |r.mappings|
      ensures Recorded(after.mappings[id], id, after.events)
    {
      RecordedMore(r.mappings[id], id, r.events, e);
    }
  }

  /** The change and its event tell the same story. */
  ghost predicate Faithful(m: FieldMapping, after: FieldMapping, action: Action, actor: Id) {
    match action
    case Suggesting => false
    case Confirming => after.status.Confirmed? && after.confirmedBy == Some(actor) && after.confirmedAt.Some?
    case Rejecting => after.status.Rejected? && after.confirmedBy.None? && after.confirmedAt.None?
    case Retiring => after.status.Retired? && after.confirmedBy == m.confirmedBy && after.confirmedAt == m.confirmedAt
    case Editing => after.status == m.status && after.confirmedBy == m.confirmedBy && after.confirmedAt == m.confirmedAt
  }

  lemma ChangeIsRecorded(m: FieldMapping, id: Id, events: seq<ChangeEvent>, after: FieldMapping, e: ChangeEvent,
                         actor: Id)
    requires Recorded(m, id, events) && Faithful(m, after, e.action, actor)
    requires e.mapping == id && e.actor == Some(actor) && e.after == SnapshotOf(after)
    ensures Recorded(after, id, events + [e])
  {
    assert (events + [e])[..|events|] == events;
  }

  lemma ChangedKeeps(r: Registry, id: Id, m: FieldMapping, action: Action, actor: Id, at: int)
    requires RegistryInv(r) && id < |r.mappings| && Faithful(r.mappings[id], m, action, actor)
    ensures RegistryInv(Changed(r, id, m, action, actor, at))
  {
    var after := Changed(r, id, m, action, actor, at);
    var e := after.events[|r.events|];
    assert Recorded(r.mappings[id], id, r.events);
    ChangeIsRecorded(r.mappings[id], id, r.events, m, e, actor);
    ChainedMore(r.events, e);
    forall k: Id | k < |after.mappings| && k != id
      ensures Recorded(after.mappings[k], k, after.events)
    {
      RecordedMore(r.mappings[k], k, r.events, e);
    }
  }

  lemma {:induction false} ConfirmedEachInv(r: Registry, ent: Id, ids: seq<Id>, actor: Id, at: int)
    requires RegistryInv(r)
    ensures RegistryInv(ConfirmedEach(r, ent, ids, actor, at))
  {
    if ids != [] {
      var n := |ids| - 1;
      ConfirmedEachInv(r, ent, ids[..n], actor, at);
      var mid := ConfirmedEach(r, ent, ids[..n], actor, at);
      if Confirmable(mid, ent, ids[n]) {
        ChangedKeeps(mid, ids[n], AsConfirmed(mid.mappings[ids[n]], actor, at), Confirming, actor, at);
      }
    }
  }

  lemma {:induction false} SuggestedAllInv(r: Registry, source: Id, fields: set<string>, ss: seq<Suggestion>, at: int)
    requires RegistryInv(r)
    ensures var after := SuggestedAll(r, source, fields, ss, at);
            && RegistryInv(after)
            && r.mappings <= after.mappings && r.events <= after.events
            && (forall i :: |r.mappings| <= i < |after.mappings| ==>
                  after.mappings[i].status.Suggested? && after.mappings[i].path in fields &&
                      after.mappings[i].source == source)
  {
    if ss != [] {
      var n := |ss| - 1;
      SuggestedAllInv(r, source, fields, ss[..n], at);
      var mid, s := SuggestedAll(r, source, fields, ss[..n], at), ss[n];
      CreatedKeeps(mid, NewMapping(source, s.path, s.entity, s.attribute, s.transform, Some(s.confidence)), None, at);
    }
  }

  /** The source maps the suggested field to the suggested attribute. */
  ghost predicate MapsTo(r: Registry, source: Id, s: Suggestion) {
    exists i: Id :: i < |r.mappings| && Maps(r.mappings[i], source, s)
  }

  predicate Maps(m: FieldMapping, source: Id, s: Suggestion) {
    m.source == source && m.path == s.path && m.entity == s.entity && m.attribute == s.attribute
  }

  /** The mapping is the suggestion, and no earlier mapping of the source was the same. */
  ghost predicate NewlySuggested(r: Registry, source: Id, fields: set<string>, s: Suggestion, i: Id)
    requires i < |r.mappings|
  {
    && s.path in fields
    && r.mappings[i] == FieldMapping(source, s.path, s.entity, s.attribute, s.transform, Suggested,
                                     Some(s.confidence), None, None)
    && forall k: Id :: k < i ==> !Maps(r.mappings[k], source, s)
  }

  ghost predicate SuggestionsSay(r: Registry, after: Registry, source: Id, fields: set<string>, ss: seq<Suggestion>) {
    && r.mappings <= after.mappings
    && (forall s :: s in ss && s.path in fields ==> MapsTo(after, source, s))
    && (forall i: Id :: |r.mappings| <= i < |after.mappings| ==> SuggestedBy(after, source, fields, ss, i))
  }

  ghost predicate SuggestedBy(r: Registry, source: Id, fields: set<string>, ss: seq<Suggestion>, i: Id)
    requires i < |r.mappings|
  {
    exists s :: s in ss && NewlySuggested(r, source, fields, s, i)
  }

  lemma NewlySuggestedStays(r: Registry, later: Registry, source: Id, fields: set<string>, s: Suggestion, i: Id)
    requires r.mappings <= later.mappings && i < |r.mappings| && NewlySuggested(r, source, fields, s, i)
    ensures NewlySuggested(later, source, fields, s, i)
  {
    forall k: Id | k < i
      ensures !Maps(later.mappings[k], source, s)
    {
      assert later.mappings[k] == r.mappings[k];
    }
  }

  lemma SuggestedOneSays(r: Registry, source: Id, fields: set<string>, s: Suggestion, at: int)
    ensures var after := SuggestedOne(r, source, fields, s, at);
            && r.mappings <= after.mappings && |after.mappings| <= |r.mappings| + 1
            && (s.path in fields ==> MapsTo(after, source, s))
            && (|after.mappings| > |r.mappings| ==> NewlySuggested(after, source, fields, s, |r.mappings|))
  {
    var after := SuggestedOne(r, source, fields, s, at);
    if s.path in fields {
      if Mapped(r, source, s.path, s.entity, s.attribute) {
        var i :| 0 <= i < |r.mappings| && r.mappings[i].source == source && r.mappings[i].path == s.path
                 && r.mappings[i].entity == s.entity && r.mappings[i].attribute == s.attribute;
        assert Maps(after.mappings[i], source, s);
      } else {
        assert Maps(after.mappings[|r.mappings|], source, s);
      }
    }
  }

  /** After the model's suggestions the source maps every suggested field that was introspected, and
      what was added is one mapping for each that it did not map that way before. */
  lemma {:induction false} SuggestionsMean(r: Registry, source: Id, fields: set<string>, ss: seq<Suggestion>, at: int)
    ensures SuggestionsSay(r, SuggestedAll(r, source, fields, ss, at), source, fields, ss)
  {
    if ss != [] {
      var n := |ss| - 1;
      var mid, after := SuggestedAll(r, source, fields, ss[..n], at), SuggestedAll(r, source, fields, ss, at);
      SuggestionsMean(r, source, fields, ss[..n], at);
      SuggestedOneSays(mid, source, fields, ss[n], at);
      assert ss == ss[..n] + [ss[n]];
      SuggestionsSayMore(r, mid, after, source, fields, ss[..n], ss[n]);
    }
  }

  lemma SuggestionsSayMore(r: Registry, mid: Registry, after: Registry, source: Id, fields: set<string>,
                           ss: seq<Suggestion>, s: Suggestion)
    requires SuggestionsSay(r, mid, source, fields, ss)
    requires mid.mappings <= after.mappings && |after.mappings| <= |mid.mappings| + 1
    requires s.path in fields ==> MapsTo(after, source, s)
    requires |after.mappings| > |mid.mappings| ==> NewlySuggested(after, source, fields, s, |mid.mappings|)
    ensures SuggestionsSay(r, after, source, fields, ss + [s])
  {
    forall t | t in ss && t.path in fields
      ensures MapsTo(after, source, t)
    {
      var i: Id :| i < |mid.mappings| && Maps(mid.mappings[i], source, t);
      assert Maps(after.mappings[i], source, t);
    }
    forall i: Id | |r.mappings| <= i < |after.mappings|
      ensures SuggestedBy(after, source, fields, ss + [s], i)
    {
      if i < |mid.mappings| {
        assert SuggestedBy(mid, source, fields, ss, i);
        var t :| t in ss && NewlySuggested(mid, source, fields, t, i);
        NewlySuggestedStays(mid, after, source, fields, t, i);
        assert t in ss + [s];
      } else {
        assert s in ss + [s];
      }
    }
  }

  lemma CommandKeepsInv(r: Registry, c: Command)
    requires RegistryInv(r)
    ensures RegistryInv(After(r, c))
  {
    if OutcomeOf(r, c).Ok? {
      match c
      case Create(_, source, path, entity, attribute, transform, actor, at) =>
        CreatedKeeps(r, NewMapping(source, path, entity.entity, attribute, transform, None), actor, at);
      case Suggest(_, source, fields, reply, at) => SuggestedAllInv(r, source, fields, reply.value, at);
      case Confirm(_, id, actor, at) =>
        ChangedKeeps(r, id, AsConfirmed(r.mappings[id], actor, at), Confirming, actor, at);
      case BulkConfirm(ent, source, ids, actor, at) =>
        ConfirmedEachInv(r, ent, EligibleOf(r, ent, source, Deduped(ids)), actor, at);
      case Reject(_, id, actor, at) => ChangedKeeps(r, id, After(r, c).mappings[id], Rejecting, actor, at);
      case Retire(_, id, actor, at) => ChangedKeeps(r, id, After(r, c).mappings[id], Retiring, actor, at);
      case Edit(_, id, p, actor, at) => ChangedKeeps(r, id, AsEdited(r.mappings[id], p), Editing, actor, at);
    }
  }

  function Commander(): (Registry, Command) -> Registry {
    (r, c) => After(r, c)
  }

  /** Over every run of the service, for every mapping: its events form one chain of snapshots
      from its creation to what it is now, they decide its status, and they name the person
      who confirmed it; a confirmed mapping always has one. */
  lemma {:induction false} HistoryIsComplete(r: Registry, cs: seq<Command>)
    requires RegistryInv(r)
    ensures RegistryInv(FoldAll(Commander(), r, cs))
  {
    if cs != [] {
      HistoryIsComplete(r, cs[..|cs| - 1]);
      CommandKeepsInv(FoldAll(Commander(), r, cs[..|cs| - 1]), cs[|cs| - 1]);
    }
  }

  // ---- bulk confirmation -------------------------------------------------------------------------

  function FailedIds(fs: seq<Failure>): seq<Id> {
    seq(|fs|, i requires 0 <= i < |fs| => fs[i].id)
  }

  /** What is reported as confirmed and as failed partitions the request. */
  lemma {:induction false} BulkPartitions(r: Registry, ent: Id, source: Id, ids: seq<Id>)
    ensures multiset(EligibleOf(r, ent, source, ids)) + multiset(FailedIds(FailuresOf(r, ent, source, ids))) ==
                multiset(ids)
    ensures forall f :: f in FailuresOf(r, ent, source, ids) ==>
                f == FailureOf(r, ent, source, f.id) && !Eligible(r, ent, source, f.id)
  {
    if ids != [] {
      var n := |ids| - 1;
      assert ids == ids[..n] + [ids[n]];
      BulkPartitions(r, ent, source, ids[..n]);
      var fs := FailuresOf(r, ent, source, ids[..n]);
      var f := FailureOf(r, ent, source, ids[n]);
      assert FailedIds(fs + [f]) == FailedIds(fs) + [f.id];
    }
  }

  /** Every failure says which: the mapping is not one of the enterprise's source, or it is and
      has another status than suggested. */
  lemma {:induction false} FailuresSay(r: Registry, ent: Id, source: Id, ids: seq<Id>, f: Failure)
    ensures f in FailuresOf(r, ent, source, ids) <==>
              && f.id in ids
              && if BelongsTo(r, ent, f.id) && r.mappings[f.id].source == source
                 then f.NotSuggested? && f.status == r.mappings[f.id].status && !f.status.Suggested?
                 else f.NotOfSource?
  {
    if ids != [] {
      var n := |ids| - 1;
      assert ids == ids[..n] + [ids[n]];
      FailuresSay(r, ent, source, ids[..n], f);
    }
  }

  /** Confirmed are the requested mappings of the enterprise's source that are still suggested. */
  lemma EligibleMeans(r: Registry, ent: Id, source: Id, ids: seq<Id>, id: Id)
    ensures id in EligibleOf(r, ent, source, ids) <==>
              && id in ids && BelongsTo(r, ent, id)
              && r.mappings[id].source == source && r.mappings[id].status.Suggested?
  {
  }

  /** They are confirmed in the order of the request. */
  lemma {:induction false} EligibleInOrder(r: Registry, ent: Id, source: Id, ids: seq<Id>, i: nat, j: nat)
    requires i < j < |EligibleOf(r, ent, source, ids)|
    ensures exists a, b :: 0 <= a < b < |ids| && ids[a] == EligibleOf(r, ent, source, ids)[i]
                           && ids[b] == EligibleOf(r, ent, source, ids)[j]
  {
    var n := |ids| - 1;
    var rest := EligibleOf(r, ent, source, ids[..n]);
    if j < |rest| {
      EligibleInOrder(r, ent, source, ids[..n], i, j);
      var a, b :| 0 <= a < b < n && ids[..n][a] == rest[i] && ids[..n][b] == rest[j];
      assert ids[a] == rest[i] && ids[b] == rest[j];
    } else {
      assert rest[i] in rest;
      var a :| 0 <= a < n && ids[..n][a] == rest[i];
      assert ids[a] == rest[i];
    }
  }

  /** Of two requested identifiers, the one mentioned first comes first. */
  lemma {:induction false} DedupedInOrder(ids: seq<Id>, i: nat, j: nat)
    requires i < j < |Deduped(ids)|
    ensures exists a :: 0 <= a < |ids| && ids[a] == Deduped(ids)[i] && Deduped(ids)[j] !in ids[..a + 1]
  {
    var n := |ids| - 1;
    var rest := Deduped(ids[..n]);
    if j < |rest| {
      DedupedInOrder(ids[..n], i, j);
      var a :| 0 <= a < n && ids[..n][a] == rest[i] && rest[j] !in ids[..n][..a + 1];
      assert ids[..n][..a + 1] == ids[..a + 1];
    } else {
      assert rest[i] in rest;
      var a :| 0 <= a < n && ids[..n][a] == rest[i];
      assert ids[n] !in ids[..n];
    }
  }

  lemma {:induction false} ConfirmedEachConfirms(r: Registry, ent: Id, ids: seq<Id>, actor: Id, at: int, id: Id)
    requires forall i :: i in ids ==> Confirmable(r, ent, i)
    requires id in ids
    ensures var after := ConfirmedEach(r, ent, ids, actor, at);
            id < |after.mappings| && after.mappings[id].status.Confirmed? &&
                after.mappings[id].confirmedBy == Some(actor)
  {
    var n := |ids| - 1;
    ConfirmedEachKeeps(r, ent, ids[..n], actor, at, ids[n]);
    if id in ids[..n] {
      ConfirmedEachConfirms(r, ent, ids[..n], actor, at, id);
    }
    if ids[n] in ids[..n] {
      ConfirmedEachConfirms(r, ent, ids[..n], actor, at, ids[n]);
    }
  }

  /** A bulk confirmation confirms exactly the requested mappings of the source that were
      suggested, leaves every other one as it was, and finds nothing left when repeated. */
  lemma BulkConfirmsExactly(r: Registry, ent: Id, source: Id, ids: seq<Id>, actor: Id, at: int, id: Id)
    requires Owned(r, ent, source)
    ensures var after := After(r, BulkConfirm(ent, source, ids, actor, at));
            && |after.mappings| == |r.mappings|
            && (id < |r.mappings| ==>
                  if id in ids && Eligible(r, ent, source, id)
                  then after.mappings[id].status.Confirmed? && after.mappings[id].confirmedBy == Some(actor)
                  else after.mappings[id] == r.mappings[id])
            && (id in ids ==> !Eligible(after, ent, source, id))
  {
    var eligible := EligibleOf(r, ent, source, Deduped(ids));
    ConfirmedEachKeeps(r, ent, eligible, actor, at, id);
    if id in eligible {
      ConfirmedEachConfirms(r, ent, eligible, actor, at, id);
    }
  }

  lemma EmptyOrNot(ids: seq<Id>)
    ensures ids == [] || exists id :: id in ids
  {
    if ids != [] {
      assert ids[0] in ids;
    }
  }

  lemma RepeatedBulkIsSilent(r: Registry, ent: Id, source: Id, ids: seq<Id>, actor: Id, at: int, again: Command)
    requires Owned(r, ent, source)
    requires again.BulkConfirm? && again.ent == ent && again.source == source && again.ids == ids
    ensures var after := After(r, BulkConfirm(ent, source, ids, actor, at));
            After(after, again) == after
  {
    var after := After(r, BulkConfirm(ent, source, ids, actor, at));
    forall id
      ensures id !in EligibleOf(after, ent, source, Deduped(ids))
    {
      BulkConfirmsExactly(r, ent, source, ids, actor, at, id);
    }
    EmptyOrNot(EligibleOf(after, ent, source, Deduped(ids)));
  }

  // ---- when retirement is final ------------------------------------------------------------------------

  /** The command rejects the mapping on behalf of the enterprise that owns it. */
  predicate RejectsOwn(r: Registry, c: Command, id: Id) {
    c.Reject? && c.id == id && Visible(r, c.ent, id)
  }

  lemma SuggestedKeepsMapping(r: Registry, c: Command, id: Id)
    requires RegistryInv(r) && c.Suggest? && id < |r.mappings|
    ensures id < |After(r, c).mappings| && After(r, c).mappings[id] == r.mappings[id]
    ensures After(r, c).owners == r.owners
  {
    if OutcomeOf(r, c).Ok? {
      SuggestedAllInv(r, c.source, c.fields, c.reply.value, c.at);
      SuggestedAllOwners(r, c.source, c.fields, c.reply.value, c.at);
    }
  }

  lemma {:induction false} SuggestedAllOwners(r: Registry, source: Id, fields: set<string>, ss: seq<Suggestion>,
                                              at: int)
    ensures SuggestedAll(r, source, fields, ss, at).owners == r.owners
  {
    if ss != [] {
      SuggestedAllOwners(r, source, fields, ss[..|ss| - 1], at);
    }
  }

  /** A mapping's source and owner never change. */
  lemma SourceFixed(r: Registry, c: Command, id: Id)
    requires RegistryInv(r) && id < |r.mappings|
    ensures var after := After(r, c);
            && after.owners == r.owners && id < |after.mappings| && after.mappings[id].source == r.mappings[id].source
  {
    match c
    case Suggest(_, _, _, _, _) => SuggestedKeepsMapping(r, c, id);
    case BulkConfirm(ent, source, ids, actor, at) =>
      var eligible := EligibleOf(r, ent, source, Deduped(ids));
      ConfirmedEachSource(r, ent, eligible, actor, at, id);
    case _ =>
  }

  lemma {:induction false} ConfirmedEachSource(r: Registry, ent: Id, ids: seq<Id>, actor: Id, at: int, id: Id)
    requires id < |r.mappings|
    ensures var after := ConfirmedEach(r, ent, ids, actor, at);
            && after.owners == r.owners && id < |after.mappings| && after.mappings[id].source == r.mappings[id].source
  {
    if ids != [] {
      ConfirmedEachSource(r, ent, ids[..|ids| - 1], actor, at, id);
    }
  }

  /** A retired mapping stays retired under a command exactly when the command is not its own
      enterprise's rejection of it. */
  lemma RetirementEndsByRejection(r: Registry, c: Command, id: Id)
    requires RegistryInv(r) && id < |r.mappings| && r.mappings[id].status.Retired?
    ensures id < |After(r, c).mappings|
    ensures After(r, c).mappings[id].status.Retired? <==> !RejectsOwn(r, c, id)
  {
    match c
    case Suggest(_, _, _, _, _) => SuggestedKeepsMapping(r, c, id);
    case BulkConfirm(ent, source, ids, actor, at) =>
      ConfirmedEachKeeps(r, ent, EligibleOf(r, ent, source, Deduped(ids)), actor, at, id);
    case _ =>
  }

  /** The mapping is retired after every prefix of the run. */
  ghost predicate StaysRetired(r: Registry, cs: seq<Command>, id: Id) {
    forall n :: 0 <= n <= |cs| ==>
      var later := FoldAll(Commander(), r, cs[..n]);
      id < |later.mappings| && later.mappings[id].status.Retired?
  }

  lemma StaysRetiredMore(r: Registry, cs: seq<Command>, last: Command, id: Id)
    ensures StaysRetired(r, cs + [last], id) <==>
              StaysRetired(r, cs, id)
              && var later := FoldAll(Commander(), r, cs + [last]);
                 id < |later.mappings| && later.mappings[id].status.Retired?
  {
    var more := cs + [last];
    assert more[..|more|] == more;
    assert forall n :: 0 <= n <= |cs| ==> more[..n] == cs[..n];
    if StaysRetired(r, more, id) {
      forall n | 0 <= n <= |cs|
        ensures var later := FoldAll(Commander(), r, cs[..n]);
                id < |later.mappings| && later.mappings[id].status.Retired?
      {
        assert more[..n] == cs[..n];
      }
    }
  }

  /** Over a run a retired mapping stays retired throughout exactly when no command of the run is
      its own enterprise's rejection of it. */
  lemma {:induction false} RetirementIsFinal(r: Registry, cs: seq<Command>, id: Id)
    requires RegistryInv(r) && id < |r.mappings| && r.mappings[id].status.Retired?
    ensures var last := FoldAll(Commander(), r, cs);
            && last.owners == r.owners && id < |last.mappings| && last.mappings[id].source == r.mappings[id].source
    ensures StaysRetired(r, cs, id) <==> forall k :: 0 <= k < |cs| ==> !RejectsOwn(r, cs[k], id)
  {
    if cs == [] {
      assert StaysRetired(r, [], id);
    } else {
      var n := |cs| - 1;
      var init, last := cs[..n], cs[n];
      assert cs == init + [last];
      var mid := FoldAll(Commander(), r, init);
      RetirementIsFinal(r, init, id);
      HistoryIsComplete(r, init);
      SourceFixed(mid, last, id);
      StaysRetiredMore(r, init, last, id);
      assert RejectsOwn(mid, last, id) == RejectsOwn(r, last, id);
      if StaysRetired(r, init, id) {
        assert init[..n] == init;
        RetirementEndsByRejection(mid, last, id);
      }
    }
  }

  /** Once rejected, such a mapping can be confirmed again. */
  lemma RejectionRevives(r: Registry, ent: Id, id: Id, actor: Id, at: int)
    requires Visible(r, ent, id) && r.mappings[id].status.Retired?
    ensures OutcomeOf(r, Confirm(ent, id, actor, at)).Conflict?
    ensures var rejected := After(r, Reject(ent, id, actor, at));
            && OutcomeOf(rejected, Confirm(ent, id, actor, at)).Ok?
            && After(rejected, Confirm(ent, id, actor, at)).mappings[id].status.Confirmed?
  {
  }

  /** No command changes a mapping of another enterprise. */
  lemma OthersUntouched(r: Registry, c: Command, id: Id)
    requires id < |r.mappings| && !BelongsTo(r, c.ent, id)
    ensures id < |After(r, c).mappings| && After(r, c).mappings[id] == r.mappings[id]
  {
    match c
    case Suggest(_, source, fields, reply, at) =>
      if OutcomeOf(r, c).Ok? {
        SuggestionsMean(r, source, fields, reply.value, at);
      }
    case BulkConfirm(ent, source, ids, actor, at) =>
      ConfirmedEachKeeps(r, ent, EligibleOf(r, ent, source, Deduped(ids)), actor, at, id);
    case _ =>
  }

  /** A registry without mappings satisfies the invariant. */
  lemma FreshRegistry(owners: seq<Id>)
    ensures RegistryInv(Registry(owners, [], []))
  {
  }
}
