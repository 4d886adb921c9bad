/** Folding a step over a sequence, and flattening a sequence of batches. */
module Folds {
  import opened Basics

  function Fold<S, L>(step: (S, L) -> Option<S>, s: S, items: seq<L>): Option<S> {
    if items == [] then Some(s)
    else
      match Fold(step, s, items[..|items| - 1])
      case None => None
      case Some(t) => step(t, items[|items| - 1])
  }

  lemma FoldOne<S, L>(step: (S, L) -> Option<S>, s: S, items: seq<L>, last: L)
    ensures Fold(step, s, items + [last]) ==
            match Fold(step, s, items) case None => None case Some(t) => step(t, last)
  {
    assert (items + [last])[..|items|] == items;
  }

  lemma FoldTwo<S, L>(step: (S, L) -> Option<S>, s: S, a: L, b: L)
    ensures Fold(step, s, [a, b]) == match step(s, a) case None => None case Some(t) => step(t, b)
  {
    assert [] + [a] == [a] && [a] + [b] == [a, b];
    FoldOne(step, s, [], a);
    FoldOne(step, s, [a], b);
  }

  lemma {:induction false} FoldAppend<S, L>(step: (S, L) -> Option<S>, s: S, first: seq<L>, second: seq<L>)
    ensures Fold(step, s, first + second) ==
            match Fold(step, s, first) case None => None case Some(t) => Fold(step, t, second)
  {
    if second == [] {
      assert first + second == first;
    } else {
      var n := |second| - 1;
      FoldAppend(step, s, first, second[..n]);
      assert first + second == (first + second[..n]) + [second[n]];
      FoldOne(step, s, first + second[..n], second[n]);
    }
  }

  /** One item more; an item at which the step fails fails every longer fold. */
  lemma FoldNext<S, L>(step: (S, L) -> Option<S>, s: S, done: seq<L>, x: L, rest: seq<L>)
    requires Fold(step, s, done).Some?
    ensures Fold(step, s, done + [x]) == step(Fold(step, s, done).value, x)
    ensures Fold(step, s, done + [x]).None? ==> Fold(step, s, done + [x] + rest).None?
  {
    FoldOne(step, s, done, x);
    FoldAppend(step, s, done + [x], rest);
  }

  predicate FailsAt<S, L>(step: (S, L) -> Option<S>, s: S, items: seq<L>, n: nat) {
    && n < |items|
    && Fold(step, s, items[..n]).Some?
    && step(Fold(step, s, items[..n]).value, items[n]).None?
  }

  /** A fold fails exactly when it has a first item at which its step fails. */
  lemma {:induction false} FoldFailsAt<S, L>(step: (S, L) -> Option<S>, s: S, items: seq<L>)
    ensures Fold(step, s, items).None? <==> exists n :: FailsAt(step, s, items, n)
  {
    if items != [] {
      var m := |items| - 1;
      FoldFailsAt(step, s, items[..m]);
      assert forall n :: 0 <= n < m ==> items[..m][..n] == items[..n];
      if Fold(step, s, items[..m]).None? {
        var n :| FailsAt(step, s, items[..m], n);
        assert FailsAt(step, s, items, n);
      } else if Fold(step, s, items).None? {
        assert FailsAt(step, s, items, m);
      } else {
        forall n: nat
          ensures !FailsAt(step, s, items, n)
        {
          if n < m {
            assert FailsAt(step, s, items, n) == FailsAt(step, s, items[..m], n);
          }
        }
      }
    }
  }

  /** Steps that fail exactly on bad items make a fold that fails exactly when one is among them. */
  lemma {:induction false} FoldFails<S(!new), L(!new)>(step: (S, L) -> Option<S>, s: S, items: seq<L>, bad: L -> bool)
    requires forall t: S, x: L :: step(t, x).None? <==> bad(x)
    ensures Fold(step, s, items).None? <==> exists x :: x in items && bad(x)
  {
    if items != [] {
      var n := |items| - 1;
      FoldFails(step, s, items[..n], bad);
      assert items == items[..n] + [items[n]];
      assert items[n] in items;
    }
  }

  function FoldAll<S, L>(step: (S, L) -> S, s: S, items: seq<L>): S {
    if items == [] then s else step(FoldAll(step, s, items[..|items| - 1]), items[|items| - 1])
  }

  lemma FoldAllOne<S, L>(step: (S, L) -> S, s: S, items: seq<L>, last: L)
    ensures FoldAll(step, s, items + [last]) == step(FoldAll(step, s, items), last)
  {
    assert (items + [last])[..|items|] == items;
  }

  lemma {:induction false} FoldAllAppend<S, L>(step: (S, L) -> S, s: S, first: seq<L>, second: seq<L>)
    ensures FoldAll(step, s, first + second) == FoldAll(step, FoldAll(step, s, first), second)
  {
    if second == [] {
      assert first + second == first;
    } else {
      var n := |second| - 1;
      FoldAllAppend(step, s, first, second[..n]);
      assert first + second == (first + second[..n]) + [second[n]];
      FoldAllOne(step, s, first + second[..n], second[n]);
    }
  }

  function FlatMap<T, L>(f: T -> seq<L>, items: seq<T>): seq<L> {
    if items == [] then [] else FlatMap(f, items[..|items| - 1]) + f(items[|items| - 1])
  }

  lemma FlatMapOne<T, L>(f: T -> seq<L>, items: seq<T>, last: T)
    ensures FlatMap(f, items + [last]) == FlatMap(f, items) + f(last)
  {
    assert (items + [last])[..|items|] == items;
  }

  lemma {:induction false} FlatMapMember<T(!new), L>(f: T -> seq<L>, items: seq<T>, x: L)
    ensures x in FlatMap(f, items) <==> exists t :: t in items && x in f(t)
  {
    if items != [] {
      var n := |items| - 1;
      FlatMapMember(f, items[..n], x);
      assert items == items[..n] + [items[n]];
      assert items[n] in items;
    }
  }

  lemma {:induction false} FlatMapSame<T, L>(f: T -> seq<L>, g: T -> seq<L>, items: seq<T>)
    requires forall t :: t in items ==> f(t) == g(t)
    ensures FlatMap(f, items) == FlatMap(g, items)
  {
    if items != [] {
      FlatMapSame(f, g, items[..|items| - 1]);
    }
  }

  /** The sum of a measure, from the front. */
  function SumOver<T>(f: T -> real, items: seq<T>): real {
    if items == [] then 0.0 else f(items[0]) + SumOver(f, items[1..])
  }

  lemma {:induction false} SumOverAppend<T>(f: T -> real, first: seq<T>, second: seq<T>)
    ensures SumOver(f, first + second) == SumOver(f, first) + SumOver(f, second)
  {
    if first == [] {
      assert first + second == second;
    } else {
      assert (first + second)[1..] == first[1..] + second;
      SumOverAppend(f, first[1..], second);
    }
  }

  lemma SumOverMore<T>(f: T -> real, items: seq<T>, last: T)
    ensures SumOver(f, items + [last]) == SumOver(f, items) + f(last)
  {
    SumOverAppend(f, items, [last]);
    assert [last][1..] == [];
  }

  lemma SumOverInserted<T>(f: T -> real, before: seq<T>, x: T, after: seq<T>)
    ensures SumOver(f, before + [x] + after) == SumOver(f, before + after) + f(x)
  {
    SumOverMore(f, before, x);
    SumOverAppend(f, before + [x], after);
    SumOverAppend(f, before, after);
  }

  /** The batches of the items one after the other, from the front. */
  function InTurn<T, L>(f: T -> seq<L>, items: seq<T>): seq<L> {
    if items == [] then [] else f(items[0]) + InTurn(f, items[1..])
  }

  lemma AppendAssociates<L>(a: seq<L>, b: seq<L>, c: seq<L>)
    ensures a + (b + c) == a + b + c
  {
  }

  lemma {:induction false} InTurnMore<T, L>(f: T -> seq<L>, items: seq<T>, last: T)
    ensures InTurn(f, items + [last]) == InTurn(f, items) + f(last)
  {
    if items == [] {
      assert [last][1..] == [];
    } else {
      assert (items + [last])[0] == items[0] && (items + [last])[1..] == items[1..] + [last];
      InTurnMore(f, items[1..], last);
      AppendAssociates(f(items[0]), InTurn(f, items[1..]), f(last));
    }
  }

  lemma {:induction false} FlatMapInTurn<T, L>(f: T -> seq<L>, items: seq<T>)
    ensures FlatMap(f, items) == InTurn(f, items)
  {
    if items != [] {
      var n := |items| - 1;
      FlatMapInTurn(f, items[..n]);
      InTurnMore(f, items[..n], items[n]);
      assert items == items[..n] + [items[n]];
    }
  }
}
