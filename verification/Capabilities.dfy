/** Promotion of capabilities (src/app/lorm/capability_service.py): one level at a time, by a
    person, with an append-only event, and never to L5 for a capped capability. */
module Capabilities {
  import opened Basics
  import opened Folds

  const LEVELS: seq<string> := ["L0", "L1", "L2", "L3", "L4", "L5"]
  const L5: Level := 5

  /** A level is its index in LEVELS. */
  type Level = n: nat | n < 6

  /** `initial` is the level the capability started with: the table does not store it, it is
      kept here to state what the events say. */
  datatype Capability = Capability(ent: Id, key: string, level: Level, l5Allowed: bool, initial: Level)

  datatype RequestStatus = Pending | Approved | Rejected

  datatype Request = Request(
    ent: Id, capability: Id, target: Level, rationale: string,
    status: RequestStatus, decidedBy: Option<Id>, decidedAt: Option<int>)

  /** `request` is the approved request: the table does not store it. */
  datatype LevelEvent = LevelEvent(
    capability: Id, from: Level, to: Level, reason: string, actor: Id, at: int, request: Id)

  datatype Ledger = Ledger(capabilities: seq<Capability>, requests: seq<Request>, events: seq<LevelEvent>)

  function LevelNamed(name: string): (r: Option<Level>)
    ensures r.Some? <==> name in LEVELS
    ensures r.Some? ==> LEVELS[r.value] == name
  {
    if name == "L0" then Some(0) else if name == "L1" then Some(1) else if name == "L2" then Some(2)
    else if name == "L3" then Some(3) else if name == "L4" then Some(4) else if name == "L5" then Some(5)
    else None
  }

  function FindCapability(caps: seq<Capability>, ent: Id, key: string): (r: Option<Id>)
    ensures r.Some? ==> r.value < |caps| && caps[r.value].ent == ent && caps[r.value].key == key
    ensures r.None? ==> forall i :: 0 <= i < |caps| ==> caps[i].ent != ent || caps[i].key != key
  {
    if caps == [] then None
    else
      var n := |caps| - 1;
      var earlier := FindCapability(caps[..n], ent, key);
      if earlier.Some? then earlier
      else if caps[n].ent == ent && caps[n].key == key then Some(n)
      else
        assert forall i :: 0 <= i < n ==> caps[i] == caps[..n][i];
        None
  }

  /** The target is one step up, and L5 only where it is allowed. */
  predicate ValidTarget(c: Capability, target: Level) {
    target == c.level + 1 && (target == L5 ==> c.l5Allowed)
  }

  datatype Outcome = NotFound | Conflict | Refused | Ok

  datatype Command =
    | Propose(ent: Id, key: string, target: string, rationale: string)
    | Approve(ent: Id, request: Id, actor: Id, at: int)
    | Reject(ent: Id, request: Id, actor: Id, at: int)

  predicate Visible(l: Ledger, ent: Id, request: Id) {
    request < |l.requests| && l.requests[request].ent == ent
  }

  function OutcomeOf(l: Ledger, c: Command): Outcome {
    match c
    case Propose(ent, key, target, _) =>
      var cap := FindCapability(l.capabilities, ent, key);
      if cap.None? then NotFound
      else if LevelNamed(target).None? || !ValidTarget(l.capabilities[cap.value], LevelNamed(target).value) then Refused
      else Ok
    case Approve(ent, id, _, _) =>
      if !Visible(l, ent, id) then NotFound
      else if !l.requests[id].status.Pending? then Conflict
      else if l.requests[id].capability >= |l.capabilities| then NotFound
      else if !ValidTarget(l.capabilities[l.requests[id].capability], l.requests[id].target) then Refused
      else Ok
    case Reject(ent, id, _, _) =>
      if !Visible(l, ent, id) then NotFound else if !l.requests[id].status.Pending? then Conflict else Ok
  }

  function Decided(r: Request, status: RequestStatus, actor: Id, at: int): Request {
    r.(status := status, decidedBy := Some(actor), decidedAt := Some(at))
  }

  function ReasonOf(r: Request): string {
    if r.rationale != "" then r.rationale else "promotion approved"
  }

  /** The ledger after a command; a refused one changes nothing. */
  function After(l: Ledger, c: Command): Ledger {
    if !OutcomeOf(l, c).Ok? then l
    else
      match c
      case Propose(ent, key, target, rationale) =>
        var cap := FindCapability(l.capabilities, ent, key).value;
        l.(requests := l.requests + [Request(ent, cap, LevelNamed(target).value, rationale, Pending, None, None)])
      case Approve(_, id, actor, at) =>
        var r := l.requests[id];
        var cap := l.capabilities[r.capability];
        Ledger(l.capabilities[r.capability := cap.(level := r.target)],
               l.requests[id := Decided(r, Approved, actor, at)],
               l.events + [LevelEvent(r.capability, cap.level, r.target, ReasonOf(r), actor, at, id)])
      case Reject(_, id, actor, at) =>
        l.(requests := l.requests[id := Decided(l.requests[id], Rejected, actor, at)])
  }

  /** The request is approved, its capability is at the target, and one event more says from where to
      where, why, and by whom. */
  predicate Promotes(l: Ledger, after: Ledger, id: Id, actor: Id, at: int) {
    && id < |l.requests| && l.requests[id].capability < |l.capabilities|
    && var r, c := l.requests[id], l.capabilities[l.requests[id].capability];
       && after.capabilities == l.capabilities[r.capability := c.(level := r.target)]
       && after.requests == l.requests[id := r.(status := Approved, decidedBy := Some(actor), decidedAt := Some(at))]
       && after.events == l.events + [LevelEvent(r.capability, c.level, r.target,
                                                if r.rationale == "" then "promotion approved" else r.rationale,
                                                actor, at, id)]
  }

  class CapabilityService {
    var ledger: Ledger

    constructor (l: Ledger)
      ensures ledger == l
    {
      ledger := l;
    }

    /** The one-step test comes first; at the top level its error message cannot be built, and
        that failure refuses the target as well. */
    method ValidateTarget(c: Capability, target: string) returns (ok: bool)
      ensures ok <==> LevelNamed(target).Some? && ValidTarget(c, LevelNamed(target).value)
    {
      var index := LevelNamed(target);
      if index.None? {
        return false;
      }
      if index.value - c.level != 1 {
        return false;
      }
      ok := index.value != L5 || c.l5Allowed;
    }

    method CreatePromotionRequest(ent: Id, key: string, target: string, rationale: string) returns (o: Outcome)
      modifies this
      ensures o == OutcomeOf(old(ledger), Propose(ent, key, target, rationale))
      ensures ledger == After(old(ledger), Propose(ent, key, target, rationale))
      ensures !o.Ok? ==> ledger == old(ledger)
      ensures o.NotFound? <==> forall i: Id :: i < |old(ledger).capabilities| ==>
                                 old(ledger).capabilities[i].ent != ent || old(ledger).capabilities[i].key != key
      ensures o.Ok? ==> exists i: Id, to: Level ::
                && i < |old(ledger).capabilities| && LEVELS[to] == target
                && var c := old(ledger).capabilities[i];
                   && c.ent == ent && c.key == key && to == c.level + 1 && (to == 5 ==> c.l5Allowed)
                   && ledger == old(ledger).(requests := old(ledger).requests + [
                        Request(ent, i, to, rationale, Pending, None, None)])
    {
      var cap := FindCapability(ledger.capabilities, ent, key);
      if cap.None? {
        return NotFound;
      }
      var valid := ValidateTarget(ledger.capabilities[cap.value], target);
      if !valid {
        return Refused;
      }
      var request := Request(ent, cap.value, LevelNamed(target).value, rationale, Pending, None, None);
      ledger := ledger.(requests := ledger.requests + [request]);
      o := Ok;
    }

    method ApprovePromotion(ent: Id, id: Id, actor: Id, at: int) returns (o: Outcome)
      modifies this
      ensures o == OutcomeOf(old(ledger), Approve(ent, id, actor, at))
      ensures ledger == After(old(ledger), Approve(ent, id, actor, at))
      ensures !o.Ok? ==> ledger == old(ledger)
      ensures o.Ok? <==>
                && id < |old(ledger).requests| && old(ledger).requests[id].ent == ent
                && old(ledger).requests[id].status.Pending?
                && old(ledger).requests[id].capability < |old(ledger).capabilities|
                && var c := old(ledger).capabilities[old(ledger).requests[id].capability];
                   var to := old(ledger).requests[id].target;
                   to == c.level + 1 && (to == 5 ==> c.l5Allowed)
      ensures o.Ok? ==> Promotes(old(ledger), ledger, id, actor, at)
    {
      if !Visible(ledger, ent, id) {
        return NotFound;
      }
      var request := ledger.requests[id];
      if !request.status.Pending? {
        return Conflict;
      }
      if request.capability >= |ledger.capabilities| {
        return NotFound;
      }
      var cap := ledger.capabilities[request.capability];
      if !ValidTarget(cap, request.target) {
        return Refused;
      }
      var from := cap.level;
      cap := cap.(level := request.target);
      ledger := ledger.(capabilities := ledger.capabilities[request.capability := cap]);
      request := request.(status := Approved, decidedBy := Some(actor), decidedAt := Some(at));
      ledger := ledger.(requests := ledger.requests[id := request]);
      var event := LevelEvent(request.capability, from, cap.level, ReasonOf(request), actor, at, id);
      ledger := ledger.(events := ledger.events + [event]);
      o := Ok;
    }

    method RejectPromotion(ent: Id, id: Id, actor: Id, at: int) returns (o: Outcome)
      modifies this
      ensures o == OutcomeOf(old(ledger), Reject(ent, id, actor, at))
      ensures ledger == After(old(ledger), Reject(ent, id, actor, at))
      ensures !o.Ok? ==> ledger == old(ledger)
      ensures o.Ok? <==> id < |old(ledger).requests| && old(ledger).requests[id].ent == ent
                         && old(ledger).requests[id].status.Pending?
      ensures o.Ok? ==> ledger == old(ledger).(requests := old(ledger).requests[id := old(ledger).requests[id].(
                          status := Rejected, decidedBy := Some(actor), decidedAt := Some(at))])
    {
      if !Visible(ledger, ent, id) {
        return NotFound;
      }
      var request := ledger.requests[id];
      if !request.status.Pending? {
        return Conflict;
      }
      request := request.(status := Rejected, decidedBy := Some(actor), decidedAt := Some(at));
      ledger := ledger.(requests := ledger.requests[id := request]);
      o := Ok;
    }
  }

  // ---- the events are the level --------------------------------------------------------------------

  function EventCount(events: seq<LevelEvent>, cap: Id): nat {
    if events == [] then 0
    else EventCount(events[..|events| - 1], cap) + if events[|events| - 1].capability == cap then 1 else 0
  }

  /** Event `k` is the step that its predecessors lead to. */
  ghost predicate StepsUp(caps: seq<Capability>, events: seq<LevelEvent>, k: nat)
    requires k < |events|
  {
    && events[k].capability < |caps|
    && events[k].from == caps[events[k].capability].initial + EventCount(events[..k], events[k].capability)
    && events[k].to == events[k].from + 1
  }

  predicate AtHeight(c: Capability, events: seq<LevelEvent>, i: Id) {
    c.level == c.initial + EventCount(events, i)
  }

  /** The events of every capability climb one step at a time from where it started. */
  ghost predicate Climbs(l: Ledger) {
    && (forall k: nat :: k < |l.events| ==> StepsUp(l.capabilities, l.events, k))
    && (forall i: Id :: i < |l.capabilities| ==> AtHeight(l.capabilities[i], l.events, i))
  }

  /** Every event approved one request, every approved request has one event, and they agree. */
  ghost predicate Matched(l: Ledger) {
    && (forall j, k :: 0 <= j < k < |l.events| ==> l.events[j].request != l.events[k].request)
    && (forall k :: 0 <= k < |l.events| ==>
          var e := l.events[k];
          && e.request < |l.requests|
          && var r := l.requests[e.request];
             r.status.Approved? && r.capability == e.capability && r.target == e.to && r.decidedBy == Some(e.actor))
    && (forall i: Id :: i < |l.requests| && l.requests[i].status.Approved? ==>
          exists k :: 0 <= k < |l.events| && l.events[k].request == i)
  }

  ghost predicate CapKept(l: Ledger) {
    forall i :: 0 <= i < |l.capabilities| ==>
      var c := l.capabilities[i];
      !c.l5Allowed && c.initial < L5 ==> c.level < L5
  }

  ghost predicate LedgerInv(l: Ledger) {
    && (forall i :: 0 <= i < |l.requests| ==> l.requests[i].capability < |l.capabilities|)
    && Climbs(l) && Matched(l) && CapKept(l)
  }

  lemma EventsMore(events: seq<LevelEvent>, e: LevelEvent, cap: Id)
    ensures EventCount(events + [e], cap) == EventCount(events, cap) + if cap == e.capability then 1 else 0
  {
    assert (events + [e])[..|events|] == events;
  }

  /** An event from a capability's current level, one step up, extends the climb. */
  function Raised(caps: seq<Capability>, e: LevelEvent): seq<Capability>
    requires e.capability < |caps|
  {
    caps[e.capability := caps[e.capability].(level := e.to)]
  }

  lemma StepStays(l: Ledger, e: LevelEvent, k: nat)
    requires Climbs(l) && e.capability < |l.capabilities| && k < |l.events|
    ensures StepsUp(Raised(l.capabilities, e), l.events + [e], k)
  {
    assert (l.events + [e])[..k] == l.events[..k];
    assert StepsUp(l.capabilities, l.events, k);
  }

  lemma LastStep(l: Ledger, e: LevelEvent)
    requires Climbs(l) && e.capability < |l.capabilities|
    requires e.from == l.capabilities[e.capability].level && e.to == e.from + 1
    ensures StepsUp(Raised(l.capabilities, e), l.events + [e], |l.events|)
  {
    assert (l.events + [e])[..|l.events|] == l.events;
    assert AtHeight(l.capabilities[e.capability], l.events, e.capability);
  }

  /** An event from a capability's current level, one step up, extends the climb. */
  lemma ClimbExtended(l: Ledger, e: LevelEvent)
    requires Climbs(l) && e.capability < |l.capabilities|
    requires e.from == l.capabilities[e.capability].level && e.to == e.from + 1
    ensures Climbs(Ledger(Raised(l.capabilities, e), l.requests, l.events + [e]))
  {
    var caps, more := Raised(l.capabilities, e), l.events + [e];
    forall k: nat | k < |more|
      ensures StepsUp(caps, more, k)
    {
      if k < |l.events| {
        StepStays(l, e, k);
      } else {
        LastStep(l, e);
      }
    }
    forall i: Id | i < |caps|
      ensures AtHeight(caps[i], more, i)
    {
      EventsMore(l.events, e, i);
      assert AtHeight(l.capabilities[i], l.events, i);
    }
  }

  lemma ApprovalClimbs(l: Ledger, c: Command)
    requires Climbs(l) && c.Approve? && OutcomeOf(l, c).Ok?
    ensures Climbs(After(l, c))
  {
    ClimbExtended(l, After(l, c).events[|l.events|]);
  }

  lemma ApprovalMatches(l: Ledger, c: Command)
    requires Matched(l) && c.Approve? && OutcomeOf(l, c).Ok?
    ensures Matched(After(l, c))
  {
    var after := After(l, c);
    forall i: Id | i < |after.requests| && after.requests[i].status.Approved?
      ensures exists k :: 0 <= k < |after.events| && after.events[k].request == i
    {
      if i == c.request {
        assert after.events[|l.events|].request == i;
      } else {
        var k :| 0 <= k < |l.events| && l.events[k].request == i;
        assert after.events[k] == l.events[k];
      }
    }
  }

  lemma RequestsMatch(l: Ledger, c: Command)
    requires Matched(l) && !c.Approve?
    ensures Matched(After(l, c))
  {
    var after := After(l, c);
    forall i: Id | i < |after.requests| && after.requests[i].status.Approved?
      ensures exists k :: 0 <= k < |after.events| && after.events[k].request == i
    {
      assert l.requests[i] == after.requests[i];
    }
  }

  lemma CommandKeepsInv(l: Ledger, c: Command)
    requires LedgerInv(l)
    ensures LedgerInv(After(l, c))
  {
    if c.Approve? && OutcomeOf(l, c).Ok? {
      ApprovalClimbs(l, c);
      ApprovalMatches(l, c);
    } else if !c.Approve? {
      RequestsMatch(l, c);
    }
  }

  function Commander(): (Ledger, Command) -> Ledger {
    (l, c) => After(l, c)
  }

  ghost predicate LevelsRise(l: Ledger, later: Ledger) {
    && |l.capabilities| == |later.capabilities| && |l.requests| <= |later.requests| && l.events <= later.events
    && (forall i :: 0 <= i < |l.capabilities| ==> l.capabilities[i].level <= later.capabilities[i].level)
    && (forall i :: 0 <= i < |l.requests| ==>
          later.requests[i].capability == l.requests[i].capability && later.requests[i].target == l.requests[i].target)
  }

  lemma CommandRaises(l: Ledger, c: Command)
    ensures LevelsRise(l, After(l, c))
  {
  }

  lemma RisesOn(a: Ledger, b: Ledger, c: Ledger)
    requires LevelsRise(a, b) && LevelsRise(b, c)
    ensures LevelsRise(a, c)
  {
  }

  /** Over every run: a capability's level is where it started plus the number of its events,
      which climb one step each; events and approved requests match one to one; a capped
      capability that did not start at L5 never gets there; no level ever falls. */
  lemma {:induction false} HistoryIsTheLevel(l: Ledger, cs: seq<Command>)
    requires LedgerInv(l)
    ensures var last := FoldAll(Commander(), l, cs);
            LedgerInv(last) && LevelsRise(l, last)
  {
    if cs != [] {
      var mid := FoldAll(Commander(), l, cs[..|cs| - 1]);
      HistoryIsTheLevel(l, cs[..|cs| - 1]);
      CommandKeepsInv(mid, cs[|cs| - 1]);
      CommandRaises(mid, cs[|cs| - 1]);
      RisesOn(l, mid, After(mid, cs[|cs| - 1]));
    }
  }

  /** Of competing requests for one step only one is ever approved: once the capability has
      reached a request's target, that request is not approved in any run. */
  lemma NeverPromotedTwice(l: Ledger, cs: seq<Command>, again: Command)
    requires LedgerInv(l) && again.Approve? && again.request < |l.requests|
    requires l.capabilities[l.requests[again.request].capability].level >= l.requests[again.request].target
    ensures !OutcomeOf(FoldAll(Commander(), l, cs), again).Ok?
  {
    HistoryIsTheLevel(l, cs);
  }

  /** An approval reaches its target, so its competitors are shut out. */
  lemma ApprovalShutsOutCompetitors(l: Ledger, c: Command, cs: seq<Command>, other: Command)
    requires LedgerInv(l) && c.Approve? && OutcomeOf(l, c).Ok?
    requires other.Approve? && other.request < |l.requests|
    requires l.requests[other.request].capability == l.requests[c.request].capability
    requires l.requests[other.request].target == l.requests[c.request].target
    ensures !OutcomeOf(FoldAll(Commander(), After(l, c), cs), other).Ok?
  {
    CommandKeepsInv(l, c);
    NeverPromotedTwice(After(l, c), cs, other);
  }

  /** Capabilities at their first level, without requests or events, satisfy the invariant. */
  lemma FreshLedger(caps: seq<Capability>)
    requires forall i :: 0 <= i < |caps| ==> caps[i].level == caps[i].initial
    ensures LedgerInv(Ledger(caps, [], []))
  {
  }
}
