/** Shared datatypes and small facts about sequences used by every module. */
module Wrappers {
  datatype Option<+T> = None | Some(value: T)

  datatype Result<+T, +E> = Success(value: T) | Failure(error: E)
}

module Sequences {

  /** The distinct elements of a sequence. */
  function Elems<T>(s: seq<T>): set<T> {
    set x | x in s
  }

  ghost predicate NoDup<T>(s: seq<T>) {
    forall i, j :: 0 <= i < j < |s| ==> s[i] != s[j]
  }

  lemma NoDupSnoc<T>(s: seq<T>, x: T)
    requires NoDup(s) && x !in s
    ensures NoDup(s + [x])
    ensures Elems(s + [x]) == Elems(s) + {x}
  {
  }

  lemma ElemsSnoc<T>(s: seq<T>, x: T)
    ensures Elems(s + [x]) == Elems(s) + {x}
  {
  }

  /** The elements before position `i`. */
  function Before<T(==)>(s: seq<T>, i: nat): set<T>
    requires i <= |s|
  {
    if i == 0 then {} else Before(s, i - 1) + {s[i - 1]}
  }

  lemma {:induction false} BeforeIsPrefix<T>(s: seq<T>, i: nat)
    requires i <= |s|
    ensures Before(s, i) == Elems(s[..i])
  {
    if i > 0 {
      BeforeIsPrefix(s, i - 1);
      assert s[..i] == s[..i - 1] + [s[i - 1]];
    }
  }

  /** The element a loop over `s` meets at `i`. */
  lemma BeforeStep<T>(s: seq<T>, i: nat)
    requires i < |s|
    ensures s[i] in Elems(s)
    ensures NoDup(s) ==> s[i] !in Before(s, i)
  {
    BeforeIsPrefix(s, i);
  }

  lemma BeforeWithin<T>(s: seq<T>, i: nat)
    requires i <= |s|
    ensures Before(s, i) <= Elems(s)
  {
    BeforeIsPrefix(s, i);
  }

  lemma BeforeAll<T>(s: seq<T>)
    ensures Before(s, |s|) == Elems(s)
  {
    BeforeIsPrefix(s, |s|);
    assert s[..|s|] == s;
  }

  /** What one more element does to a running intersection and difference. */
  lemma RunningSets<T>(seen: set<T>, s: set<T>, x: T)
    ensures (seen + {x}) * s == if x in s then seen * s + {x} else seen * s
    ensures (seen + {x}) - s == if x in s then seen - s else seen - s + {x}
  {
  }

  lemma UnionAssociative<T>(a: set<T>, b: set<T>, c: set<T>)
    ensures (a + b) + c == a + (b + c)
  {
  }

  lemma {:induction false} NoDupCardinality<T>(s: seq<T>)
    ensures |Elems(s)| <= |s|
    ensures |Elems(s)| == |s| <==> NoDup(s)
  {
    if s != [] {
      var front, x := s[..|s| - 1], s[|s| - 1];
      assert s == front + [x];
      ElemsSnoc(front, x);
      NoDupCardinality(front);
      if x in front {
        assert Elems(s) == Elems(front);
        var i :| 0 <= i < |front| && front[i] == x;
        assert s[i] == s[|s| - 1];
      } else if NoDup(front) {
        NoDupSnoc(front, x);
      } else {
        var i, j :| 0 <= i < j < |front| && front[i] == front[j];
        assert s[i] == s[j];
      }
    }
  }
}

/** Doing one thing again and again. */
module Iteration {
  function Iterate<T>(f: T -> T, x: T, n: nat): T
    decreases n
  {
    if n == 0 then x else Iterate(f, f(x), n - 1)
  }

  lemma {:induction false} IterateSnoc<T>(f: T -> T, x: T, n: nat)
    ensures Iterate(f, x, n + 1) == f(Iterate(f, x, n))
    decreases n
  {
    if n > 0 {
      IterateSnoc(f, f(x), n - 1);
    }
  }

  lemma {:induction false} IterateFixed<T>(f: T -> T, x: T, n: nat)
    requires f(x) == x
    ensures Iterate(f, x, n) == x
    decreases n
  {
    if n > 0 {
      IterateFixed(f, x, n - 1);
    }
  }
}

module MapSums {

  function Count<K(==)>(m: map<K, nat>, k: K): nat {
    if k in m then m[k] else 0
  }

  /** The sum of the values of a map. */
  ghost function Sum<K>(m: map<K, nat>): nat
    decreases |m|
  {
    if m == map[] then 0
    else
      var k :| k in m;
      SmallerWithout(m, k);
      m[k] + Sum(m - {k})
  }

  lemma SmallerWithout<K, V>(m: map<K, V>, k: K)
    requires k in m
    ensures |m - {k}| < |m|
  {
    assert (m - {k}).Keys == m.Keys - {k};
    assert |(m - {k}).Keys| == |m - {k}| && |m.Keys| == |m|;
  }

  /** Any key may be split off. */
  lemma {:induction false} SumSplits<K>(m: map<K, nat>, k: K)
    requires k in m
    ensures Sum(m) == m[k] + Sum(m - {k})
    decreases |m|
  {
    var j :| j in m && Sum(m) == m[j] + Sum(m - {j});
    if j != k {
      SmallerWithout(m, j);
      SmallerWithout(m, k);
      SumSplits(m - {j}, k);
      SumSplits(m - {k}, j);
      assert m - {j} - {k} == m - {k} - {j};
    }
  }

  lemma SumPut<K>(m: map<K, nat>, k: K, n: nat)
    ensures Sum(m[k := n]) == Sum(m) - Count(m, k) + n
  {
    SumSplits(m[k := n], k);
    if k in m {
      SumSplits(m, k);
      assert m[k := n] - {k} == m - {k};
    } else {
      assert m[k := n] - {k} == m;
    }
  }
}
