/** Counting and summing over sequences, with the lemmas that say what one changed element does. */
module Sequences {

  /** How many elements satisfy f. */
  function Count<T>(s: seq<T>, f: T -> bool): (n: nat)
    ensures n <= |s|
  {
    if |s| == 0 then 0
    else Count(s[..|s| - 1], f) + (if f(s[|s| - 1]) then 1 else 0)
  }

  /** The sum of f over the elements. */
  function Sum<T>(s: seq<T>, f: T -> int): int
  {
    if |s| == 0 then 0
    else Sum(s[..|s| - 1], f) + f(s[|s| - 1])
  }

  /** The first position whose element satisfies f, or the length when there is none. */
  function FirstWhere<T>(s: seq<T>, f: T -> bool): (i: nat)
    ensures i <= |s|
    ensures i < |s| ==> f(s[i])
    ensures forall k | 0 <= k < i :: !f(s[k])
  {
    if |s| == 0 || f(s[0]) then 0
    else
      var rest := FirstWhere(s[1..], f);
      assert forall k | 1 <= k < 1 + rest :: s[k] == s[1..][k - 1];
      1 + rest
  }

  lemma {:induction false} FirstWhereAppend<T>(s: seq<T>, x: T, f: T -> bool)
    ensures FirstWhere(s + [x], f)
            == if FirstWhere(s, f) < |s| || f(x) then FirstWhere(s, f) else |s| + 1
  {
    if |s| == 0 {
      assert s + [x] == [x];
    } else if !f(s[0]) {
      assert (s + [x])[1..] == s[1..] + [x];
      FirstWhereAppend(s[1..], x, f);
    }
  }

  lemma {:induction false} FirstWhereMatches<T>(s: seq<T>, t: seq<T>, f: T -> bool)
    requires |s| == |t| && forall k | 0 <= k < |s| :: f(s[k]) == f(t[k])
    ensures FirstWhere(s, f) == FirstWhere(t, f)
  {
    if |s| > 0 && !f(s[0]) {
      FirstWhereMatches(s[1..], t[1..], f);
    }
  }

  /** No element occurs twice. */
  predicate Distinct<T(==)>(s: seq<T>) {
    forall i, j | 0 <= i < j < |s| :: s[i] != s[j]
  }

  lemma {:induction false} CountMatches<S, T>(s: seq<S>, f: S -> bool, t: seq<T>, g: T -> bool)
    requires |s| == |t|
    requires forall i | 0 <= i < |s| :: f(s[i]) == g(t[i])
    ensures Count(s, f) == Count(t, g)
  {
    if |s| > 0 {
      var n := |s| - 1;
      forall i | 0 <= i < n ensures f(s[..n][i]) == g(t[..n][i]) {
        assert s[..n][i] == s[i] && t[..n][i] == t[i];
      }
      CountMatches(s[..n], f, t[..n], g);
    }
  }

  /** Counting with a weaker predicate never gives less. */
  lemma {:induction false} CountAtMost<S, T>(s: seq<S>, f: S -> bool, t: seq<T>, g: T -> bool)
    requires |s| == |t|
    requires forall i | 0 <= i < |s| :: f(s[i]) ==> g(t[i])
    ensures Count(s, f) <= Count(t, g)
  {
    if |s| > 0 {
      var n := |s| - 1;
      forall i | 0 <= i < n ensures f(s[..n][i]) ==> g(t[..n][i]) {
        assert s[..n][i] == s[i] && t[..n][i] == t[i];
      }
      CountAtMost(s[..n], f, t[..n], g);
    }
  }

  /** When one position stops satisfying the predicate and all others agree, the count drops by one. */
  lemma {:induction false} CountDrops<S, T>(s: seq<S>, f: S -> bool, t: seq<T>, g: T -> bool, k: nat)
    requires |s| == |t| && k < |s|
    requires f(s[k]) && !g(t[k])
    requires forall i | 0 <= i < |s| && i != k :: f(s[i]) == g(t[i])
    ensures Count(t, g) == Count(s, f) - 1
  {
    var n := |s| - 1;
    assert forall i | 0 <= i < n :: s[..n][i] == s[i] && t[..n][i] == t[i];
    if k == n {
      CountMatches(s[..n], f, t[..n], g);
    } else {
      CountDrops(s[..n], f, t[..n], g, k);
    }
  }

  lemma {:induction false} CountNone<T>(s: seq<T>, f: T -> bool)
    ensures Count(s, f) == 0 <==> forall i | 0 <= i < |s| :: !f(s[i])
  {
    if |s| > 0 {
      var n := |s| - 1;
      CountNone(s[..n], f);
      assert forall i | 0 <= i < n :: s[..n][i] == s[i];
      if forall i | 0 <= i < |s| :: !f(s[i]) {
        assert forall i | 0 <= i < n :: !f(s[..n][i]);
      }
    }
  }

  /** At least two elements count exactly when two different positions satisfy f. */
  lemma {:induction false} CountTwo<T>(s: seq<T>, f: T -> bool)
    ensures Count(s, f) >= 2 <==> exists i, j :: 0 <= i < j < |s| && f(s[i]) && f(s[j])
  {
    if |s| > 0 {
      var n := |s| - 1;
      CountTwo(s[..n], f);
      CountNone(s[..n], f);
      assert forall i | 0 <= i < n :: s[..n][i] == s[i];
      if Count(s, f) >= 2 {
        if Count(s[..n], f) >= 2 {
          var i, j :| 0 <= i < j < n && f(s[..n][i]) && f(s[..n][j]);
          assert f(s[i]) && f(s[j]);
        } else {
          var i :| 0 <= i < n && f(s[..n][i]);
          assert f(s[i]) && f(s[n]);
        }
      }
      if exists i, j :: 0 <= i < j < |s| && f(s[i]) && f(s[j]) {
        var i, j :| 0 <= i < j < |s| && f(s[i]) && f(s[j]);
        assert f(s[..n][i]);
        if j < n {
          assert f(s[..n][j]);
        }
      }
    }
  }

  /** The n-th of some elements, counting from zero, is found where n of them come before it. */
  lemma {:induction false} NthCounted<T>(s: seq<T>, f: T -> bool, n: nat) returns (i: nat)
    requires n < Count(s, f)
    ensures i < |s| && f(s[i]) && Count(s[..i], f) == n
  {
    var last := |s| - 1;
    if n < Count(s[..last], f) {
      i := NthCounted(s[..last], f, n);
      assert s[..last][..i] == s[..i];
    } else {
      i := last;
    }
  }

  lemma {:induction false} CountGrows<T>(s: seq<T>, f: T -> bool, i: nat, j: nat)
    requires i < j <= |s| && f(s[i])
    ensures Count(s[..i], f) < Count(s[..j], f)
  {
    assert s[..j][..j - 1] == s[..j - 1];
    if i < j - 1 {
      CountGrows(s, f, i, j - 1);
    }
  }

  lemma {:induction false} SumMatches<S, T>(s: seq<S>, f: S -> int, t: seq<T>, g: T -> int)
    requires |s| == |t|
    requires forall i | 0 <= i < |s| :: f(s[i]) == g(t[i])
    ensures Sum(s, f) == Sum(t, g)
  {
    if |s| > 0 {
      var n := |s| - 1;
      forall i | 0 <= i < n ensures f(s[..n][i]) == g(t[..n][i]) {
        assert s[..n][i] == s[i] && t[..n][i] == t[i];
      }
      SumMatches(s[..n], f, t[..n], g);
    }
  }

  /** Changing one position changes the sum by the difference there. */
  lemma {:induction false} SumDiffers<S, T>(s: seq<S>, f: S -> int, t: seq<T>, g: T -> int, k: nat)
    requires |s| == |t| && k < |s|
    requires forall i | 0 <= i < |s| && i != k :: f(s[i]) == g(t[i])
    ensures Sum(t, g) == Sum(s, f) - f(s[k]) + g(t[k])
  {
    var n := |s| - 1;
    assert forall i | 0 <= i < n :: s[..n][i] == s[i] && t[..n][i] == t[i];
    if k == n {
      SumMatches(s[..n], f, t[..n], g);
    } else {
      SumDiffers(s[..n], f, t[..n], g, k);
    }
  }

  lemma {:induction false} SumAdds<S, T, U>(s: seq<S>, f: S -> int, t: seq<T>, g: T -> int, u: seq<U>, h: U -> int)
    requires |s| == |t| == |u|
    requires forall i | 0 <= i < |s| :: h(u[i]) == f(s[i]) + g(t[i])
    ensures Sum(u, h) == Sum(s, f) + Sum(t, g)
  {
    if |s| > 0 {
      var n := |s| - 1;
      forall i | 0 <= i < n ensures h(u[..n][i]) == f(s[..n][i]) + g(t[..n][i]) {
        assert s[..n][i] == s[i] && t[..n][i] == t[i] && u[..n][i] == u[i];
      }
      SumAdds(s[..n], f, t[..n], g, u[..n], h);
    }
  }

  lemma {:induction false} SumAtMost<S, T>(s: seq<S>, f: S -> int, t: seq<T>, g: T -> int)
    requires |s| == |t|
    requires forall i | 0 <= i < |s| :: f(s[i]) <= g(t[i])
    ensures Sum(s, f) <= Sum(t, g)
  {
    if |s| > 0 {
      var n := |s| - 1;
      forall i | 0 <= i < n ensures f(s[..n][i]) <= g(t[..n][i]) {
        assert s[..n][i] == s[i] && t[..n][i] == t[i];
      }
      SumAtMost(s[..n], f, t[..n], g);
    }
  }

  lemma {:induction false} SumOpposite<S, T>(s: seq<S>, f: S -> int, t: seq<T>, g: T -> int)
    requires |s| == |t|
    requires forall i | 0 <= i < |s| :: f(s[i]) == -g(t[i])
    ensures Sum(s, f) == -Sum(t, g)
  {
    if |s| > 0 {
      var n := |s| - 1;
      forall i | 0 <= i < n ensures f(s[..n][i]) == -g(t[..n][i]) {
        assert s[..n][i] == s[i] && t[..n][i] == t[i];
      }
      SumOpposite(s[..n], f, t[..n], g);
    }
  }

  /** A sum of non-negative terms is at least each of them. */
  lemma {:induction false} SumAtLeast<T>(s: seq<T>, f: T -> int, k: nat)
    requires k < |s| && forall i | 0 <= i < |s| :: f(s[i]) >= 0
    ensures Sum(s, f) >= f(s[k])
  {
    var n := |s| - 1;
    assert forall i | 0 <= i < n :: s[..n][i] == s[i];
    if k < n {
      SumAtLeast(s[..n], f, k);
    } else if n > 0 {
      SumAtLeast(s[..n], f, 0);
    }
  }

  lemma {:induction false} SumZero<T>(s: seq<T>, f: T -> int)
    requires forall i | 0 <= i < |s| :: f(s[i]) == 0
    ensures Sum(s, f) == 0
  {
    if |s| > 0 {
      assert forall i | 0 <= i < |s| - 1 :: s[..|s| - 1][i] == s[i];
      SumZero(s[..|s| - 1], f);
    }
  }

  lemma SumAppend<T>(s: seq<T>, x: T, f: T -> int)
    ensures Sum(s + [x], f) == Sum(s, f) + f(x)
  {
    assert (s + [x])[..|s|] == s;
  }

  lemma CountAppend<T>(s: seq<T>, x: T, f: T -> bool)
    ensures Count(s + [x], f) == Count(s, f) + (if f(x) then 1 else 0)
  {
    assert (s + [x])[..|s|] == s;
  }

  // ---- Filtering ----

  /** The elements satisfying f, in order. */
  function Filter<T>(s: seq<T>, f: T -> bool): (r: seq<T>)
    ensures forall i | 0 <= i < |r| :: f(r[i]) && r[i] in s
  {
    if |s| == 0 then []
    else
      var before := Filter(s[..|s| - 1], f);
      if f(s[|s| - 1]) then before + [s[|s| - 1]] else before
  }

  lemma FilterAppend<T>(s: seq<T>, x: T, f: T -> bool)
    ensures Filter(s + [x], f) == Filter(s, f) + (if f(x) then [x] else [])
  {
    assert (s + [x])[..|s|] == s;
  }

  lemma {:induction false} FilterJoin<T>(s: seq<T>, t: seq<T>, f: T -> bool)
    ensures Filter(s + t, f) == Filter(s, f) + Filter(t, f)
  {
    if |t| == 0 {
      assert s + t == s;
    } else {
      var n := |t| - 1;
      FilterJoin(s, t[..n], f);
      assert s + t == (s + t[..n]) + [t[n]];
      FilterAppend(s + t[..n], t[n], f);
      assert t == t[..n] + [t[n]];
      FilterAppend(t[..n], t[n], f);
    }
  }

  lemma {:induction false} FilterAll<T>(s: seq<T>, f: T -> bool)
    requires forall i | 0 <= i < |s| :: f(s[i])
    ensures Filter(s, f) == s
  {
    if |s| > 0 {
      assert s == s[..|s| - 1] + [s[|s| - 1]];
      FilterAll(s[..|s| - 1], f);
    }
  }

  lemma {:induction false} FilterNone<T>(s: seq<T>, f: T -> bool)
    requires forall i | 0 <= i < |s| :: !f(s[i])
    ensures Filter(s, f) == []
  {
    if |s| > 0 {
      FilterNone(s[..|s| - 1], f);
    }
  }

  // ---- Flattening ----

  /** The first k parts, one after another. */
  function Flatten<T>(part: nat -> seq<T>, k: nat): seq<T> {
    if k == 0 then [] else Flatten(part, k - 1) + part(k - 1)
  }

  /** A filter that keeps exactly one part keeps exactly that part of the whole. */
  lemma {:induction false} FilterOnePart<T>(part: nat -> seq<T>, k: nat, f: T -> bool, j: nat)
    requires forall i: nat | i < k :: Filter(part(i), f) == if i == j then part(j) else []
    ensures Filter(Flatten(part, k), f) == if j < k then part(j) else []
  {
    if k > 0 {
      FilterOnePart(part, k - 1, f, j);
      FilterJoin(Flatten(part, k - 1), part(k - 1), f);
    }
  }
}
