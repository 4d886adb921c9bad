/** Observability gaps (src/app/observation/observability.py): at most one open gap per key. */
module Gaps {
  import opened Basics
  import opened Tables

  predicate IsOpen(gaps: seq<Gap>, key: GapKey, i: Id) {
    i < |gaps| && gaps[i].key == key && gaps[i].closedAt.None?
  }

  /** The lookup answers at most one row for every key, so it never fails. */
  predicate OneOpenPerKey(gaps: seq<Gap>) {
    forall i, j :: 0 <= i < j < |gaps| && gaps[i].closedAt.None? && gaps[j].closedAt.None? ==>
      gaps[i].key != gaps[j].key
  }

  predicate HasOpen(gaps: seq<Gap>, key: GapKey) {
    exists i :: 0 <= i < |gaps| && IsOpen(gaps, key, i)
  }

  function Current(gaps: seq<Gap>, key: GapKey): (r: Option<Id>)
    ensures r.Some? ==> IsOpen(gaps, key, r.value)
    ensures r.None? ==> forall i :: 0 <= i < |gaps| ==> !IsOpen(gaps, key, i)
  {
    if gaps == [] then None
    else
      var n := |gaps| - 1;
      var earlier := Current(gaps[..n], key);
      if earlier.Some? then
        assert IsOpen(gaps, key, earlier.value);
        earlier
      else if gaps[n].key == key && gaps[n].closedAt.None? then Some(n)
      else
        assert forall i :: 0 <= i < n ==> IsOpen(gaps, key, i) == IsOpen(gaps[..n], key, i);
        None
  }

  function Opened(gaps: seq<Gap>, key: GapKey, now: int): seq<Gap> {
    if Current(gaps, key).Some? then gaps else gaps + [Gap(key, now, None)]
  }

  function Closed(gaps: seq<Gap>, key: GapKey, now: int): (r: seq<Gap>)
    ensures |r| == |gaps|
  {
    match Current(gaps, key)
    case None => gaps
    case Some(i) => gaps[i := gaps[i].(closedAt := Some(now))]
  }

  method OpenGap(s: Session, key: GapKey, now: int) returns (gap: Id)
    modifies s`db
    ensures s.db == old(s.db).(gaps := Opened(old(s.db.gaps), key, now))
    ensures IsOpen(s.db.gaps, key, gap)
    ensures s.db.gaps == old(s.db.gaps) || s.db.gaps == old(s.db.gaps) + [Gap(key, now, None)]
    ensures |s.db.gaps| == |old(s.db.gaps)| <==>
              exists i :: 0 <= i < |old(s.db.gaps)| && old(s.db.gaps)[i].key == key && old(s.db.gaps)[i].closedAt.None?
  {
    var existing := Current(s.db.gaps, key);
    if existing.Some? {
      assert s.db.gaps[existing.value].key == key && s.db.gaps[existing.value].closedAt.None?;
      return existing.value;
    }
    forall i | 0 <= i < |s.db.gaps|
      ensures s.db.gaps[i].key != key || s.db.gaps[i].closedAt.Some?
    {
      assert !IsOpen(s.db.gaps, key, i);
    }
    gap := |s.db.gaps|;
    s.db := s.db.(gaps := s.db.gaps + [Gap(key, now, None)]);
  }

  method CloseGap(s: Session, key: GapKey, now: int)
    modifies s`db
    ensures s.db == old(s.db).(gaps := Closed(old(s.db.gaps), key, now))
    ensures s.db.gaps == old(s.db.gaps) ||
            exists i :: 0 <= i < |old(s.db.gaps)| && old(s.db.gaps)[i].key == key && old(s.db.gaps)[i].closedAt.None?
                        && s.db.gaps == old(s.db.gaps)[i := Gap(key, old(s.db.gaps)[i].openedAt, Some(now))]
  {
    var existing := Current(s.db.gaps, key);
    if existing.Some? {
      var i := existing.value;
      s.db := s.db.(gaps := s.db.gaps[i := s.db.gaps[i].(closedAt := Some(now))]);
    }
  }

  /** Opening leaves exactly one open gap for its key, closing leaves none, and neither
      touches the openness of another key. */
  lemma OpenCloseEffect(gaps: seq<Gap>, key: GapKey, other: GapKey, now: int)
    requires OneOpenPerKey(gaps)
    ensures OneOpenPerKey(Opened(gaps, key, now)) && OneOpenPerKey(Closed(gaps, key, now))
    ensures HasOpen(Opened(gaps, key, now), key) && !HasOpen(Closed(gaps, key, now), key)
    ensures other != key ==> HasOpen(Opened(gaps, key, now), other) == HasOpen(gaps, other)
    ensures other != key ==> HasOpen(Closed(gaps, key, now), other) == HasOpen(gaps, other)
  {
    var after, closed := Opened(gaps, key, now), Closed(gaps, key, now);
    var cur := Current(gaps, key);
    forall i | 0 <= i < |gaps| && cur.None? && gaps[i].closedAt.None?
      ensures gaps[i].key != key
    {
      assert !IsOpen(gaps, key, i);
    }
    assert IsOpen(after, key, if cur.Some? then cur.value else |gaps|);
    if other != key {
      forall i | 0 <= i < |gaps|
        ensures IsOpen(gaps, other, i) == IsOpen(after, other, i) == IsOpen(closed, other, i)
      {
      }
    }
  }
}
