/** Small shared types. */
module Prelude {
  datatype Option<+T> = None | Some(value: T)

  function Max(a: int, b: int): int { if a >= b then a else b }

  function Min(a: int, b: int): int { if a <= b then a else b }

  function PowerOfTwo(k: nat): nat { if k == 0 then 1 else 2 * PowerOfTwo(k - 1) }

  function MaxReal(a: real, b: real): real { if a >= b then a else b }

  function MinReal(a: real, b: real): real { if a <= b then a else b }

  lemma MulMonotone(a: nat, b: nat, n: nat)
    requires a <= b
    ensures a * n <= b * n
  {
  }

  /** The numbers from `n` to just below `m`. */
  function Range(n: nat, m: nat): (r: set<nat>)
    requires n <= m
    ensures |r| == m - n && forall k :: n <= k < m <==> k in r
    decreases m - n
  {
    if n == m then {} else Range(n, m - 1) + {m - 1}
  }

  lemma {:induction false} SubsetSize<T>(a: set<T>, b: set<T>)
    requires a <= b
    ensures |a| <= |b|
  {
    if a != {} {
      var x :| x in a;
      SubsetSize(a - {x}, b - {x});
    }
  }

  /** As many numbers as numbers one smaller. */
  lemma {:induction false} ShiftedSize(some: set<nat>, shifted: set<nat>)
    requires forall i: nat :: i in shifted <==> i > 0 && i - 1 in some
    ensures |shifted| == |some|
  {
    if some == {} {
      assert shifted == {};
    } else {
      var i :| i in some;
      assert i + 1 in shifted;
      ShiftedSize(some - {i}, shifted - {i + 1});
    }
  }

  /** Places counted from the front, and those behind the head counted from there. */
  lemma {:induction false} PlacesBehind(behind: set<nat>, all: set<nat>)
    requires forall i: nat :: i in behind <==> i + 1 in all
    ensures |all| == |behind| + if 0 in all then 1 else 0
  {
    var shifted := all - {0};
    ShiftedSize(behind, shifted);
    assert all == shifted + if 0 in all then {0} else {};
  }

  lemma ConcatAssociative<T>(a: seq<T>, b: seq<T>, c: seq<T>)
    ensures (a + b) + c == a + (b + c)
  {
  }

  lemma HeadCounts<T>(x: T, rest: seq<T>)
    ensures multiset([x] + rest) == multiset{x} + multiset(rest)
  {
  }

  /** Adding its head to what permutes the rest of a list permutes the list. */
  lemma {:induction false} TakesHead<T>(s: seq<T>, rest: seq<T>, all: seq<T>)
    requires s != [] && multiset(rest) == multiset(s[1..]) && multiset(all) == multiset(rest) + multiset{s[0]}
    ensures multiset(all) == multiset(s)
  {
    HeadCounts(s[0], s[1..]);
    assert s == [s[0]] + s[1..];
  }

  lemma CountsBehindHead<T>(x: T, longer: seq<T>, rest: seq<T>, y: T)
    requires multiset(longer) == multiset(rest) + multiset{y}
    ensures multiset([x] + longer) == multiset([x] + rest) + multiset{y}
  {
    HeadCounts(x, longer);
    HeadCounts(x, rest);
  }

  lemma SameLess<T>(a: multiset<T>, b: multiset<T>, x: T)
    requires a + multiset{x} <= multiset{x} + b
    ensures a <= b
  {
    forall y ensures a[y] <= b[y] {
      assert (a + multiset{x})[y] <= (multiset{x} + b)[y];
    }
  }

  /** The sum of `f` over the values of a map. */
  ghost function SumBy<K, V>(m: map<K, V>, f: V -> real): real {
    if m == map[] then 0.0
    else
      var k :| k in m;
      f(m[k]) + SumBy(m - {k}, f)
  }

  lemma {:induction false} SumWithoutKey<K, V>(m: map<K, V>, f: V -> real, k: K)
    requires k in m
    ensures SumBy(m, f) == f(m[k]) + SumBy(m - {k}, f)
    decreases m
  {
    var first :| first in m && SumBy(m, f) == f(m[first]) + SumBy(m - {first}, f);
    if first != k {
      SumWithoutKey(m - {first}, f, k);
      SumWithoutKey(m - {k}, f, first);
      assert m - {first} - {k} == m - {k} - {first};
    }
  }

  lemma {:induction false} SumSet<K, V>(m: map<K, V>, f: V -> real, k: K, v: V)
    ensures SumBy(m[k := v], f) == SumBy(m, f) + f(v) - (if k in m then f(m[k]) else 0.0)
  {
    SumWithoutKey(m[k := v], f, k);
    assert m[k := v] - {k} == m - {k};
    if k in m {
      SumWithoutKey(m, f, k);
    } else {
      assert m - {k} == m;
    }
  }

  lemma {:induction false} SizeWithoutKey<K, V>(m: map<K, V>, k: K)
    requires k in m
    ensures |m| == |m - {k}| + 1
  {
    assert m.Keys == (m - {k}).Keys + {k};
  }
}
