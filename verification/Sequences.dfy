/** Sequences without repetition. */
module Sequences {
  ghost predicate Distinct<T>(s: seq<T>) { forall i, j | 0 <= i < j < |s| :: s[i] != s[j] }

  lemma DistinctCons<T>(x: T, rest: seq<T>)
    ensures Distinct([x] + rest) <==> Distinct(rest) && x !in rest
  {
    var all := [x] + rest;
    assert forall i | 0 <= i < |rest| :: all[i + 1] == rest[i];
    if Distinct(all) {
      forall i | 0 <= i < |rest| ensures rest[i] != x {
        assert all[0] != all[i + 1];
      }
      forall i, j | 0 <= i < j < |rest| ensures rest[i] != rest[j] {
        assert all[i + 1] != all[j + 1];
      }
    }
  }

  lemma {:induction false} DistinctAppend<T>(a: seq<T>, b: seq<T>)
    ensures Distinct(a + b) <==> Distinct(a) && Distinct(b) && forall x | x in a :: x !in b
  {
    if a == [] {
      assert a + b == b;
    } else {
      assert a + b == [a[0]] + (a[1..] + b) && a == [a[0]] + a[1..];
      DistinctCons(a[0], a[1..] + b);
      DistinctCons(a[0], a[1..]);
      DistinctAppend(a[1..], b);
    }
  }

  lemma {:induction false} SameElements<T>(a: seq<T>, b: seq<T>)
    requires Distinct(a) && Distinct(b) && forall t :: t in a <==> t in b
    ensures multiset(a) == multiset(b)
  {
    forall t ensures multiset(a)[t] == multiset(b)[t] {
      CountDistinct(a, t);
      CountDistinct(b, t);
    }
  }

  lemma {:induction false} CountDistinct<T>(a: seq<T>, t: T)
    requires Distinct(a)
    ensures multiset(a)[t] == if t in a then 1 else 0
  {
    if a != [] {
      var last := a[|a| - 1];
      var rest := a[..|a| - 1];
      CountDistinct(rest, t);
      assert a == rest + [last];
      assert last !in rest;
    }
  }
}
