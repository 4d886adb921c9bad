/** The lifecycle of field mappings (src/app/integration/mapping_service.py and the suggestions
    of src/app/integration/mapping_ai.py), with its append-only change events. */
module Mappings {
  import opened Basics
  import opened Tables

  datatype Status = Suggested | Confirmed | Rejected | Retired
  datatype Action = Suggesting | Confirming | Editing | Rejecting | Retiring

  datatype FieldMapping = FieldMapping(
    source: Id,
    path: string,
    entity: Entity,
    attribute: string,
    transform: Option<string>,
    status: Status,
    aiConfidence: Option<real>,
    confirmedBy: Option<Id>,
    confirmedAt: Option<int>)

  datatype Snapshot = Snapshot(
    path: string, entity: Entity, attribute: string, transform: Option<string>,
    status: Status, aiConfidence: Option<real>)

  datatype ChangeEvent = ChangeEvent(
    mapping: Id, action: Action, actor: Option<Id>, before: Option<Snapshot>, after: Snapshot, at: int)

  /** The mapping tables; `owners` gives the enterprise of every data source. */
  datatype Registry = Registry(owners: seq<Id>, mappings: seq<FieldMapping>, events: seq<ChangeEvent>)

  /** An entity named in a request. */
  datatype EntityName = Canonical(entity: Entity) | NotCanonical(name: string)

  function SnapshotOf(m: FieldMapping): Snapshot {
    Snapshot(m.path, m.entity, m.attribute, m.transform, m.status, m.aiConfidence)
  }

  predicate Owned(r: Registry, ent: Id, source: Id) {
    source < |r.owners| && r.owners[source] == ent
  }

  predicate Visible(r: Registry, ent: Id, id: Id) {
    id < |r.mappings| && Owned(r, ent, r.mappings[id].source)
  }

  // ---- single operations ---------------------------------------------------------------------------

  function Created(r: Registry, m: FieldMapping, actor: Option<Id>, at: int): Registry {
    r.(mappings := r.mappings + [m],
       events := r.events + [ChangeEvent(|r.mappings|, Suggesting, actor, None, SnapshotOf(m), at)])
  }

  /** Mapping `id` becomes `m`, with the event that says so. */
  function Changed(r: Registry, id: Id, m: FieldMapping, action: Action, actor: Id, at: int): Registry
    requires id < |r.mappings|
  {
    r.(mappings := r.mappings[id := m],
       events := r.events + [ChangeEvent(id, action, Some(actor), Some(SnapshotOf(r.mappings[id])), SnapshotOf(m), at)])
  }

  function NewMapping(source: Id, path: string, entity: Entity, attribute: string,
                      transform: Option<string>, aiConfidence: Option<real>): FieldMapping {
    FieldMapping(source, path, entity, attribute, transform, Suggested, aiConfidence, None, None)
  }

  function AsConfirmed(m: FieldMapping, actor: Id, at: int): FieldMapping {
    m.(status := Confirmed, confirmedBy := Some(actor), confirmedAt := Some(at))
  }

  /** Only the given fields change; a transform can be changed to none. */
  datatype Patch = Patch(entity: Option<EntityName>, attribute: Option<string>, transform: Option<Option<string>>)

  predicate Patchable(p: Patch) {
    p.entity.Some? ==> p.entity.value.Canonical?
  }

  function AsEdited(m: FieldMapping, p: Patch): FieldMapping
    requires Patchable(p)
  {
    m.(entity := if p.entity.Some? then p.entity.value.entity else m.entity,
       attribute := if p.attribute.Some? then p.attribute.value else m.attribute,
       transform := if p.transform.Some? then p.transform.value else m.transform)
  }

  predicate Confirmable(r: Registry, ent: Id, id: Id) {
    Visible(r, ent, id) && !r.mappings[id].status.Retired?
  }

  /** One confirmation; a foreign or retired mapping is left alone. */
  function ConfirmedOne(r: Registry, ent: Id, id: Id, actor: Id, at: int): Registry {
    if Confirmable(r, ent, id) then Changed(r, id, AsConfirmed(r.mappings[id], actor, at), Confirming, actor, at) else r
  }

  /** Single confirmations, one after the other. */
  function ConfirmedEach(r: Registry, ent: Id, ids: seq<Id>, actor: Id, at: int): Registry {
    if ids == [] then r
    else ConfirmedOne(ConfirmedEach(r, ent, ids[..|ids| - 1], actor, at), ent, ids[|ids| - 1], actor, at)
  }

  // ---- suggestions of the model ----------------------------------------------------------------------

  datatype Suggestion = Suggestion(path: string, entity: Entity, attribute: string, transform: Option<string>,
      confidence: real)

  predicate Mapped(r: Registry, source: Id, path: string, entity: Entity, attribute: string) {
    exists i :: 0 <= i < |r.mappings| && r.mappings[i].source == source && r.mappings[i].path == path
                && r.mappings[i].entity == entity && r.mappings[i].attribute == attribute
  }

  /** A suggestion is dropped when its field was not introspected, or when the source already
      maps that field to that attribute. */
  function SuggestedOne(r: Registry, source: Id, fields: set<string>, s: Suggestion, at: int): Registry {
    if s.path !in fields || Mapped(r, source, s.path, s.entity, s.attribute) then r
    else Created(r, NewMapping(source, s.path, s.entity, s.attribute, s.transform, Some(s.confidence)), None, at)
  }

  function SuggestedAll(r: Registry, source: Id, fields: set<string>, ss: seq<Suggestion>, at: int): Registry {
    if ss == [] then r
    else SuggestedOne(SuggestedAll(r, source, fields, ss[..|ss| - 1], at), source, fields, ss[|ss| - 1], at)
  }

  // ---- bulk confirmation -----------------------------------------------------------------------------

  predicate OfSource(r: Registry, ent: Id, source: Id, id: Id) {
    Visible(r, ent, id) && r.mappings[id].source == source
  }

  predicate Eligible(r: Registry, ent: Id, source: Id, id: Id) {
    OfSource(r, ent, source, id) && r.mappings[id].status.Suggested?
  }

  /** Each identifier once, in order of first mention. */
  function Deduped(ids: seq<Id>): (d: seq<Id>)
    ensures forall i :: i in d <==> i in ids
    ensures forall i, j :: 0 <= i < j < |d| ==> d[i] != d[j]
  {
    if ids == [] then []
    else
      var rest, last := Deduped(ids[..|ids| - 1]), ids[|ids| - 1];
      assert ids == ids[..|ids| - 1] + [last];
      if last in rest then rest else rest + [last]
  }

  function EligibleOf(r: Registry, ent: Id, source: Id, ids: seq<Id>): (e: seq<Id>)
    ensures forall i :: i in e <==> i in ids && Eligible(r, ent, source, i)
  {
    if ids == [] then []
    else
      var rest, last := EligibleOf(r, ent, source, ids[..|ids| - 1]), ids[|ids| - 1];
      assert ids == ids[..|ids| - 1] + [last];
      if Eligible(r, ent, source, last) then rest + [last] else rest
  }

  datatype Failure = NotOfSource(id: Id) | NotSuggested(id: Id, status: Status)

  function FailureOf(r: Registry, ent: Id, source: Id, id: Id): Failure {
    if OfSource(r, ent, source, id) then NotSuggested(id, r.mappings[id].status) else NotOfSource(id)
  }

  function FailuresOf(r: Registry, ent: Id, source: Id, ids: seq<Id>): seq<Failure> {
    if ids == [] then []
    else
      var rest, last := FailuresOf(r, ent, source, ids[..|ids| - 1]), ids[|ids| - 1];
      if Eligible(r, ent, source, last) then rest else rest + [FailureOf(r, ent, source, last)]
  }

  // ---- all operations --------------------------------------------------------------------------------

  datatype Command =
    | Create(ent: Id, source: Id, path: string, entity: EntityName, attribute: string,
             transform: Option<string>, creator: Option<Id>, at: int)
    | Suggest(ent: Id, source: Id, fields: set<string>, reply: Option<seq<Suggestion>>, at: int)
    | Confirm(ent: Id, id: Id, actor: Id, at: int)
    | BulkConfirm(ent: Id, source: Id, ids: seq<Id>, actor: Id, at: int)
    | Reject(ent: Id, id: Id, actor: Id, at: int)
    | Retire(ent: Id, id: Id, actor: Id, at: int)
    | Edit(ent: Id, id: Id, patch: Patch, actor: Id, at: int)

  datatype Outcome = NotFound | Conflict | Refused | ModelUnavailable | Ok

  function OutcomeOf(r: Registry, c: Command): Outcome {
    match c
    case Create(ent, source, _, entity, _, _, _, _) =>
      if !Owned(r, ent, source) then NotFound else if entity.NotCanonical? then Refused else Ok
    case Suggest(ent, source, fields, reply, _) =>
      if !Owned(r, ent, source) then NotFound
      else if fields == {} then Refused
      else if reply.None? then ModelUnavailable else Ok
    case Confirm(ent, id, _, _) =>
      if !Visible(r, ent, id) then NotFound else if r.mappings[id].status.Retired? then Conflict else Ok
    case BulkConfirm(ent, source, _, _, _) => if !Owned(r, ent, source) then NotFound else Ok
    case Reject(ent, id, _, _) => if !Visible(r, ent, id) then NotFound else Ok
    case Retire(ent, id, _, _) => if !Visible(r, ent, id) then NotFound else Ok
    case Edit(ent, id, p, _, _) => if !Visible(r, ent, id) then NotFound else if !Patchable(p) then Refused else Ok
  }

  /** The tables after a command; a refused one changes nothing. */
  function After(r: Registry, c: Command): Registry {
    if !OutcomeOf(r, c).Ok? then r
    else
      match c
      case Create(_, source, path, entity, attribute, transform, actor, at) =>
        Created(r, NewMapping(source, path, entity.entity, attribute, transform, None), actor, at)
      case Suggest(_, source, fields, reply, at) => SuggestedAll(r, source, fields, reply.value, at)
      case Confirm(ent, id, actor, at) => ConfirmedOne(r, ent, id, actor, at)
      case BulkConfirm(ent, source, ids, actor, at) =>
        ConfirmedEach(r, ent, EligibleOf(r, ent, source, Deduped(ids)), actor, at)
      case Reject(_, id, actor, at) =>
        Changed(r, id, r.mappings[id].(status := Rejected, confirmedBy := None, confirmedAt := None), Rejecting,
            actor, at)
      case Retire(_, id, actor, at) => Changed(r, id, r.mappings[id].(status := Retired), Retiring, actor, at)
      case Edit(_, id, p, actor, at) => Changed(r, id, AsEdited(r.mappings[id], p), Editing, actor, at)
  }

  // ---- what one operation leaves, field by field --------------------------------------------------------

  predicate Shows(s: Snapshot, m: FieldMapping) {
    && s.path == m.path && s.entity == m.entity && s.attribute == m.attribute && s.transform == m.transform
    && s.status == m.status && s.aiConfidence == m.aiConfidence
  }

  /** Mapping `id` became `m`, and one event more shows it before and after. */
  predicate OneChange(r: Registry, after: Registry, id: Id, m: FieldMapping, action: Action, actor: Id, at: int) {
    && id < |r.mappings| && after.owners == r.owners && after.mappings == r.mappings[id := m]
    && |after.events| == |r.events| + 1 && r.events <= after.events
    && var e := after.events[|r.events|];
       && e.mapping == id && e.action == action && e.actor == Some(actor) && e.at == at
       && e.before.Some? && Shows(e.before.value, r.mappings[id]) && Shows(e.after, m)
  }

  /** The mapping `m` was added, and one event more shows it. */
  predicate OneCreation(r: Registry, after: Registry, m: FieldMapping, actor: Option<Id>, at: int) {
    && after.owners == r.owners && after.mappings == r.mappings + [m]
    && |after.events| == |r.events| + 1 && r.events <= after.events
    && var e := after.events[|r.events|];
       && e.mapping == |r.mappings| && e.action == Suggesting && e.actor == actor && e.at == at
       && e.before.None? && Shows(e.after, m)
  }

  /** The mapping belongs to a source of the enterprise. */
  predicate BelongsTo(r: Registry, ent: Id, id: Id) {
    && id < |r.mappings| && r.mappings[id].source < |r.owners| && r.owners[r.mappings[id].source] == ent
  }

  /** Only the given fields of an edit changed; a transform can be given as none. */
  predicate EditedBy(m: FieldMapping, p: Patch, after: FieldMapping) {
    && after.source == m.source && after.path == m.path && after.status == m.status
    && after.aiConfidence == m.aiConfidence && after.confirmedBy == m.confirmedBy && after.confirmedAt == m.confirmedAt
    && (match p.entity
        case None => after.entity == m.entity
        case Some(name) => name == Canonical(after.entity))
    && (match p.attribute case None => after.attribute == m.attribute case Some(a) => after.attribute == a)
    && (match p.transform case None => after.transform == m.transform case Some(t) => after.transform == t)
  }

  // ---- the service -----------------------------------------------------------------------------------

  lemma DedupedMore(ids: seq<Id>, last: Id)
    ensures Deduped(ids + [last]) == if last in ids then Deduped(ids) else Deduped(ids) + [last]
  {
    assert (ids + [last])[..|ids|] == ids;
  }

  /** Confirmations of other mappings leave a mapping as it is. */
  lemma {:induction false} ConfirmedEachKeeps(r: Registry, ent: Id, ids: seq<Id>, actor: Id, at: int, id: Id)
    ensures var after := ConfirmedEach(r, ent, ids, actor, at);
            && after.owners == r.owners && |after.mappings| == |r.mappings|
            && (id < |r.mappings| && id !in ids ==> after.mappings[id] == r.mappings[id])
  {
    if ids != [] {
      assert ids == ids[..|ids| - 1] + [ids[|ids| - 1]];
      ConfirmedEachKeeps(r, ent, ids[..|ids| - 1], actor, at, id);
    }
  }

  /** Drops repeated identifiers, keeping the order of first mention. */
  method Dedupe(ids: seq<Id>) returns (distinct: seq<Id>)
    ensures distinct == Deduped(ids)
  {
    distinct := [];
    for i := 0 to |ids|
      invariant distinct == Deduped(ids[..i])
    {
      assert ids[..i + 1] == ids[..i] + [ids[i]];
      DedupedMore(ids[..i], ids[i]);
      if ids[i] !in distinct {
        distinct := distinct + [ids[i]];
      }
    }
    assert ids[..|ids|] == ids;
  }

  class MappingService {
    var reg: Registry

    constructor (r: Registry)
      ensures reg == r
    {
      reg := r;
    }

    method CreateMapping(ent: Id, source: Id, path: string, entity: EntityName, attribute: string,
                         transform: Option<string>, actor: Option<Id>, at: int) returns (o: Outcome)
      modifies this
      ensures o == OutcomeOf(old(reg), Create(ent, source, path, entity, attribute, transform, actor, at))
      ensures reg == After(old(reg), Create(ent, source, path, entity, attribute, transform, actor, at))
      ensures !o.Ok? ==> reg == old(reg)
      ensures o.Ok? <==> source < |old(reg).owners| && old(reg).owners[source] == ent && entity.Canonical?
      ensures o.Ok? ==> OneCreation(old(reg), reg, FieldMapping(source, path, entity.entity, attribute, transform,
                                                                Suggested, None, None, None), actor, at)
    {
      if !Owned(reg, ent, source) {
        return NotFound;
      }
      if entity.NotCanonical? {
        return Refused;
      }
      var m := NewMapping(source, path, entity.entity, attribute, transform, None);
      var event := ChangeEvent(|reg.mappings|, Suggesting, actor, None, SnapshotOf(m), at);
      reg := reg.(mappings := reg.mappings + [m]);
      reg := reg.(events := reg.events + [event]);
      o := Ok;
    }

    /** Sets the fields, then appends the event; the callers check eligibility. */
    method ApplyConfirm(id: Id, actor: Id, at: int)
      requires id < |reg.mappings|
      modifies this
      ensures reg == Changed(old(reg), id, AsConfirmed(old(reg).mappings[id], actor, at), Confirming, actor, at)
    {
      var before := SnapshotOf(reg.mappings[id]);
      var m := reg.mappings[id].(status := Confirmed, confirmedBy := Some(actor), confirmedAt := Some(at));
      reg := reg.(mappings := reg.mappings[id := m]);
      reg := reg.(events := reg.events + [ChangeEvent(id, Confirming, Some(actor), Some(before), SnapshotOf(m), at)]);
    }

    method ConfirmMapping(ent: Id, id: Id, actor: Id, at: int) returns (o: Outcome)
      modifies this
      ensures o == OutcomeOf(old(reg), Confirm(ent, id, actor, at))
      ensures reg == After(old(reg), Confirm(ent, id, actor, at))
      ensures !o.Ok? ==> reg == old(reg)
      ensures o.Ok? <==> BelongsTo(old(reg), ent, id) && !old(reg).mappings[id].status.Retired?
      ensures o.Ok? ==> OneChange(old(reg), reg, id, old(reg).mappings[id].(
                                    status := Confirmed, confirmedBy := Some(actor), confirmedAt := Some(at)),
                                  Confirming, actor, at)
    {
      if !Visible(reg, ent, id) {
        return NotFound;
      }
      if reg.mappings[id].status.Retired? {
        return Conflict;
      }
      ApplyConfirm(id, actor, at);
      o := Ok;
    }

    /** Confirms the eligible ones of distinct identifiers; the others are left untouched. */
    method ConfirmRequested(ent: Id, source: Id, requested: seq<Id>, actor: Id, at: int)
      returns (confirmed: seq<Id>, failed: seq<Failure>)
      requires forall i, j :: 0 <= i < j < |requested| ==> requested[i] != requested[j]
      modifies this
      ensures confirmed == EligibleOf(old(reg), ent, source, requested)
      ensures failed == FailuresOf(old(reg), ent, source, requested)
      ensures reg == ConfirmedEach(old(reg), ent, confirmed, actor, at)
    {
      confirmed, failed := [], [];
      ghost var before := reg;
      for n := 0 to |requested|
        invariant confirmed == EligibleOf(before, ent, source, requested[..n])
        invariant failed == FailuresOf(before, ent, source, requested[..n])
        invariant reg == ConfirmedEach(before, ent, confirmed, actor, at)
      {
        assert requested[..n + 1][..n] == requested[..n];
        var id := requested[n];
        ConfirmedEachKeeps(before, ent, confirmed, actor, at, id);
        if !OfSource(reg, ent, source, id) {
          failed := failed + [NotOfSource(id)];
          continue;
        }
        if !reg.mappings[id].status.Suggested? {
          failed := failed + [NotSuggested(id, reg.mappings[id].status)];
          continue;
        }
        ApplyConfirm(id, actor, at);
        assert (confirmed + [id])[..|confirmed|] == confirmed;
        confirmed := confirmed + [id];
      }
      assert requested[..|requested|] == requested;
    }

    method ConfirmMappingsBulk(ent: Id, source: Id, ids: seq<Id>, actor: Id, at: int)
      returns (o: Outcome, requested: seq<Id>, confirmed: seq<Id>, failed: seq<Failure>)
      modifies this
      ensures o == OutcomeOf(old(reg), BulkConfirm(ent, source, ids, actor, at))
      ensures reg == After(old(reg), BulkConfirm(ent, source, ids, actor, at))
      ensures o.Ok? ==> requested == Deduped(ids)
      ensures o.Ok? ==> confirmed == EligibleOf(old(reg), ent, source, requested)
      ensures o.Ok? ==> failed == FailuresOf(old(reg), ent, source, requested)
      ensures !o.Ok? ==> reg == old(reg)
      ensures o.Ok? <==> source < |old(reg).owners| && old(reg).owners[source] == ent
    {
      requested, confirmed, failed := [], [], [];
      if !Owned(reg, ent, source) {
        return NotFound, requested, confirmed, failed;
      }
      requested := Dedupe(ids);
      confirmed, failed := ConfirmRequested(ent, source, requested, actor, at);
      o := Ok;
    }

    method RejectMapping(ent: Id, id: Id, actor: Id, at: int) returns (o: Outcome)
      modifies this
      ensures o == OutcomeOf(old(reg), Reject(ent, id, actor, at))
      ensures reg == After(old(reg), Reject(ent, id, actor, at))
      ensures !o.Ok? ==> reg == old(reg)
      ensures o.Ok? <==> BelongsTo(old(reg), ent, id)
      ensures o.Ok? ==> OneChange(old(reg), reg, id, old(reg).mappings[id].(
                                    status := Rejected, confirmedBy := None, confirmedAt := None),
                                  Rejecting, actor, at)
    {
      if !Visible(reg, ent, id) {
        return NotFound;
      }
      var before := SnapshotOf(reg.mappings[id]);
      var m := reg.mappings[id].(status := Rejected, confirmedBy := None, confirmedAt := None);
      reg := reg.(mappings := reg.mappings[id := m]);
      reg := reg.(events := reg.events + [ChangeEvent(id, Rejecting, Some(actor), Some(before), SnapshotOf(m), at)]);
      o := Ok;
    }

    method RetireMapping(ent: Id, id: Id, actor: Id, at: int) returns (o: Outcome)
      modifies this
      ensures o == OutcomeOf(old(reg), Retire(ent, id, actor, at))
      ensures reg == After(old(reg), Retire(ent, id, actor, at))
      ensures !o.Ok? ==> reg == old(reg)
      ensures o.Ok? <==> BelongsTo(old(reg), ent, id)
      ensures o.Ok? ==> OneChange(old(reg), reg, id, old(reg).mappings[id].(status := Retired), Retiring, actor, at)
    {
      if !Visible(reg, ent, id) {
        return NotFound;
      }
      var before := SnapshotOf(reg.mappings[id]);
      var m := reg.mappings[id].(status := Retired);
      reg := reg.(mappings := reg.mappings[id := m]);
      reg := reg.(events := reg.events + [ChangeEvent(id, Retiring, Some(actor), Some(before), SnapshotOf(m), at)]);
      o := Ok;
    }

    method EditMapping(ent: Id, id: Id, patch: Patch, actor: Id, at: int) returns (o: Outcome)
      modifies this
      ensures o == OutcomeOf(old(reg), Edit(ent, id, patch, actor, at))
      ensures reg == After(old(reg), Edit(ent, id, patch, actor, at))
      ensures !o.Ok? ==> reg == old(reg)
      ensures o.Ok? <==> BelongsTo(old(reg), ent, id) && (patch.entity.Some? ==> patch.entity.value.Canonical?)
      ensures o.Ok? ==> id < |old(reg).mappings| && id < |reg.mappings|
                        && EditedBy(old(reg).mappings[id], patch, reg.mappings[id])
                        && OneChange(old(reg), reg, id, reg.mappings[id], Editing, actor, at)
    {
      if !Visible(reg, ent, id) {
        return NotFound;
      }
      var m := reg.mappings[id];
      var before := SnapshotOf(m);
      if patch.entity.Some? {
        if patch.entity.value.NotCanonical? {
          return Refused;
        }
        m := m.(entity := patch.entity.value.entity);
      }
      if patch.attribute.Some? {
        m := m.(attribute := patch.attribute.value);
      }
      if patch.transform.Some? {
        m := m.(transform := patch.transform.value);
      }
      reg := reg.(mappings := reg.mappings[id := m]);
      reg := reg.(events := reg.events + [ChangeEvent(id, Editing, Some(actor), Some(before), SnapshotOf(m), at)]);
      o := Ok;
    }

    /** Adds the suggestions of the model's valid reply; None is a model that stays unavailable,
        whose gap and audit record are in module Api. */
    method SuggestMappings(ent: Id, source: Id, fields: set<string>, reply: Option<seq<Suggestion>>, at: int)
      returns (o: Outcome, created: seq<Id>)
      modifies this
      ensures o == OutcomeOf(old(reg), Suggest(ent, source, fields, reply, at))
      ensures reg == After(old(reg), Suggest(ent, source, fields, reply, at))
      ensures !o.Ok? ==> reg == old(reg)
      ensures o.Ok? <==> source < |old(reg).owners| && old(reg).owners[source] == ent && fields != {} && reply.Some?
      ensures |reg.mappings| == |old(reg).mappings| + |created|
      ensures forall k :: 0 <= k < |created| ==> created[k] == |old(reg).mappings| + k
    {
      created := [];
      if !Owned(reg, ent, source) {
        return NotFound, created;
      }
      if fields == {} {
        return Refused, created;
      }
      if reply.None? {
        return ModelUnavailable, created;
      }
      var ss := reply.value;
      for n := 0 to |ss|
        invariant reg == SuggestedAll(old(reg), source, fields, ss[..n], at)
        invariant |reg.mappings| == |old(reg).mappings| + |created|
        invariant forall k :: 0 <= k < |created| ==> created[k] == |old(reg).mappings| + k
      {
        assert ss[..n + 1][..n] == ss[..n];
        var s := ss[n];
        if s.path !in fields || Mapped(reg, source, s.path, s.entity, s.attribute) {
          continue;
        }
        var m := NewMapping(source, s.path, s.entity, s.attribute, s.transform, Some(s.confidence));
        created := created + [|reg.mappings|];
        reg := reg.(mappings := reg.mappings + [m],
                    events := reg.events + [ChangeEvent(|reg.mappings|, Suggesting, None, None, SnapshotOf(m), at)]);
      }
      assert ss[..|ss|] == ss;
      o := Ok;
    }
  }
}
