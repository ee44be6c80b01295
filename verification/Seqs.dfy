/** Sequence operations the platform leans on: `dict.fromkeys` de-duplication, filtering
    comprehensions, Python's stable sort, and "occurs as a contiguous block". */
module Seqs {

  datatype Option<+T> = None | Some(value: T)

  /** `s[:n]`. */
  function Take<T>(s: seq<T>, n: nat): seq<T> {
    if |s| <= n then s else s[..n]
  }

  function Min(a: nat, b: nat): nat {
    if a <= b then a else b
  }

  predicate Unique<T(==)>(s: seq<T>) {
    forall i, j :: 0 <= i < j < |s| ==> s[i] != s[j]
  }

  /** `tuple(dict.fromkeys(s))`: every value once, in order of first occurrence. */
  function Distinct<T(==, !new)>(s: seq<T>): (r: seq<T>)
    ensures Unique(r)
    ensures forall x :: x in r <==> x in s
    ensures |r| <= |s|
  {
    if s == [] then []
    else
      var r := Distinct(s[..|s| - 1]);
      if s[|s| - 1] in r then r else r + [s[|s| - 1]]
  }

  lemma {:induction false} DistinctKeepsHead<T(!new)>(s: seq<T>)
    requires s != []
    ensures Distinct(s) != [] && Distinct(s)[0] == s[0]
  {
    if |s| <= 1 {
    } else {
      DistinctKeepsHead(s[..|s| - 1]);
    }
  }

  /** `r[i]` is a value of `s` at its first occurrence, and what came before it in `s` is `r[..i]`. */
  ghost predicate NextNew<T(!new)>(s: seq<T>, r: seq<T>, i: nat)
    requires i < |r|
  {
    exists k :: 0 <= k < |s| && s[k] == r[i] && s[k] !in s[..k] && forall x :: x in s[..k] <==> x in r[..i]
  }

  /** The first `n` distinct values of `s`, in order of first occurrence. */
  ghost predicate FirstDistinct<T(!new)>(s: seq<T>, r: seq<T>, n: nat) {
    && |r| <= n && (forall i :: 0 <= i < |r| ==> NextNew(s, r, i))
    && (|r| == n || forall x :: x in s ==> x in r)
  }

  lemma {:induction false} DistinctIsInOrder<T(!new)>(s: seq<T>, i: nat)
    requires i < |Distinct(s)|
    ensures NextNew(s, Distinct(s), i)
  {
    var most, r := s[..|s| - 1], Distinct(s);
    var last, q := s[|s| - 1], Distinct(most);
    if i < |q| {
      DistinctIsInOrder(most, i);
      var k :| 0 <= k < |most| && most[k] == q[i] && most[k] !in most[..k] &&
          forall x :: x in most[..k] <==> x in q[..i];
      assert s[..k] == most[..k] && r[..i] == q[..i] && s[k] == most[k];
    } else {
      assert r[..i] == q && s[|s| - 1] == r[i];
    }
  }

  lemma FirstOfDistinct<T(!new)>(s: seq<T>, n: nat)
    ensures FirstDistinct(s, Take(Distinct(s), n), n)
  {
    var r := Take(Distinct(s), n);
    forall i | 0 <= i < |r| ensures NextNew(s, r, i) {
      DistinctIsInOrder(s, i);
      assert r[..i] == Distinct(s)[..i];
    }
  }

  lemma DistinctIsFirst<T(!new)>(s: seq<T>)
    ensures FirstDistinct(s, Distinct(s), |s|)
  {
    FirstOfDistinct(s, |s|);
  }

  /** De-duplicating a longer list only appends to the result. */
  lemma {:induction false} DistinctIsIncremental<T(!new)>(s: seq<T>, t: seq<T>)
    ensures Distinct(s) <= Distinct(s + t)
  {
    if t == [] {
      assert s + t == s;
    } else {
      assert (s + t)[..|s + t| - 1] == s + t[..|t| - 1];
      DistinctIsIncremental(s, t[..|t| - 1]);
    }
  }

  function Filter<T(!new)>(s: seq<T>, p: T -> bool): (r: seq<T>)
    ensures forall x :: x in r <==> x in s && p(x)
    ensures |r| <= |s|
  {
    if s == [] then []
    else (if p(s[0]) then [s[0]] else []) + Filter(s[1..], p)
  }

  lemma {:induction false} FilterKeepsMultiplicity<T(!new)>(s: seq<T>, p: T -> bool, x: T)
    ensures multiset(Filter(s, p))[x] == if p(x) then multiset(s)[x] else 0
  {
    if s == [] {
    } else {
      FilterKeepsMultiplicity(s[1..], p, x);
      assert s == [s[0]] + s[1..];
      assert multiset(s) == multiset{s[0]} + multiset(s[1..]);
      if p(s[0]) {
        assert multiset(Filter(s, p)) == multiset{s[0]} + multiset(Filter(s[1..], p));
      } else {
        assert Filter(s, p) == Filter(s[1..], p);
      }
    }
  }

  /** More elements and a weaker test can only select more. */
  lemma FilterMonotone<T(!new)>(s: seq<T>, t: seq<T>, p: T -> bool, q: T -> bool)
    requires multiset(s) <= multiset(t)
    requires forall x :: p(x) ==> q(x)
    ensures multiset(Filter(s, p)) <= multiset(Filter(t, q))
    ensures |Filter(s, p)| <= |Filter(t, q)|
    ensures forall x :: x in Filter(s, p) ==> x in Filter(t, q)
  {
    var a, b := multiset(Filter(s, p)), multiset(Filter(t, q));
    forall x ensures a[x] <= b[x] {
      FilterKeepsMultiplicity(s, p, x);
      FilterKeepsMultiplicity(t, q, x);
    }
    assert b == a + (b - a);
    forall x | x in Filter(s, p) ensures x in Filter(t, q) {
      assert x in a && x in b;
    }
  }

  lemma FilterConcat<T(!new)>(s: seq<T>, t: seq<T>, p: T -> bool)
    ensures Filter(s + t, p) == Filter(s, p) + Filter(t, p)
  {
    if s == [] {
      assert s + t == t;
    } else {
      assert (s + t)[1..] == s[1..] + t;
      FilterConcat(s[1..], t, p);
    }
  }

  ghost predicate TotalPreorder<T(!new)>(le: (T, T) -> bool) {
    && (forall a, b :: le(a, b) || le(b, a))
    && (forall a, b, c :: le(a, b) && le(b, c) ==> le(a, c))
  }

  function Insert<T>(x: T, s: seq<T>, le: (T, T) -> bool): seq<T> {
    if s == [] || le(x, s[0]) then [x] + s else [s[0]] + Insert(x, s[1..], le)
  }

  /** `sorted(s, key=...)`: ties keep their original order. */
  function StableSort<T>(s: seq<T>, le: (T, T) -> bool): seq<T> {
    if s == [] then [] else Insert(s[0], StableSort(s[1..], le), le)
  }

  ghost predicate Sorted<T>(s: seq<T>, le: (T, T) -> bool) {
    forall i, j :: 0 <= i < j < |s| ==> le(s[i], s[j])
  }

  lemma SortedCons<T>(x: T, s: seq<T>, le: (T, T) -> bool)
    requires Sorted(s, le) && forall y :: y in s ==> le(x, y)
    ensures Sorted([x] + s, le)
  {
  }

  lemma {:induction false} InsertIsSorted<T(!new)>(x: T, s: seq<T>, le: (T, T) -> bool)
    requires TotalPreorder(le) && Sorted(s, le)
    ensures Sorted(Insert(x, s, le), le)
    ensures multiset(Insert(x, s, le)) == multiset(s) + multiset{x}
  {
    if s == [] {
    } else if le(x, s[0]) {
      SortedCons(x, s, le);
    } else {
      var rest: seq<T> := Insert(x, s[1..], le);
      InsertIsSorted(x, s[1..], le);
      assert s == [s[0]] + s[1..];
      forall y | y in rest ensures le(s[0], y) {
        assert y in multiset(rest);
      }
      SortedCons(s[0], rest, le);
    }
  }

  lemma {:induction false} StableSortSorts<T(!new)>(s: seq<T>, le: (T, T) -> bool)
    requires TotalPreorder(le)
    ensures Sorted(StableSort(s, le), le)
    ensures multiset(StableSort(s, le)) == multiset(s)
    ensures |StableSort(s, le)| == |s|
  {
    hide Sorted, Insert, TotalPreorder;
    if s == [] {
      SortedEmpty(le);
    } else {
      StableSortSorts(s[1..], le);
      InsertIsSorted(s[0], StableSort(s[1..], le), le);
      assert s == [s[0]] + s[1..];
    }
    assert |multiset(StableSort(s, le))| == |multiset(s)|;
  }

  lemma SortedEmpty<T>(le: (T, T) -> bool)
    ensures Sorted([], le)
  {
  }

  /** The head of the sorted list is the earliest of the least elements. */
  lemma {:induction false} StableSortHead<T(!new)>(s: seq<T>, le: (T, T) -> bool) returns (i: nat)
    requires TotalPreorder(le) && s != []
    ensures i < |s| && StableSort(s, le) != [] && StableSort(s, le)[0] == s[i]
    ensures forall j :: 0 <= j < |s| ==> le(s[i], s[j])
    ensures forall j :: 0 <= j < i ==> !le(s[j], s[i])
  {
    if |s| == 1 {
      i := 0;
    } else {
      var k := StableSortHead(s[1..], le);
      forall j | 1 <= j < |s| ensures le(s[k + 1], s[j]) {
        assert s[j] == s[1..][j - 1];
      }
      i := if le(s[0], s[k + 1]) then 0 else k + 1;
      forall j | 0 <= j < i ensures !le(s[j], s[i]) {
        assert j > 0 ==> s[j] == s[1..][j - 1];
      }
    }
  }

  /** `next(x for x in s if p(x))`. */
  function First<T>(s: seq<T>, p: T -> bool): (r: Option<T>)
    ensures r.None? ==> forall i :: 0 <= i < |s| ==> !p(s[i])
    ensures r.Some? ==> p(r.value) && r.value in s
  {
    if s == [] then None else if p(s[0]) then Some(s[0]) else First(s[1..], p)
  }

  lemma {:induction false} FirstOfInsert<T(!new)>(x: T, s: seq<T>, le: (T, T) -> bool, p: T -> bool)
    requires TotalPreorder(le) && Sorted(s, le)
    ensures var f := First(s, p);
            First(Insert(x, s, le), p) == if p(x) && (f.None? || le(x, f.value)) then Some(x) else f
  {
    if s == [] || le(x, s[0]) {
      assert ([x] + s)[1..] == s;
    } else {
      assert ([s[0]] + Insert(x, s[1..], le))[1..] == Insert(x, s[1..], le);
      FirstOfInsert(x, s[1..], le, p);
    }
  }

  /** The earliest least hit of `s`. */
  ghost predicate IsBestHit<T>(s: seq<T>, le: (T, T) -> bool, p: T -> bool, k: nat) {
    && k < |s| && p(s[k])
    && (forall j :: 0 <= j < |s| && p(s[j]) ==> le(s[k], s[j]))
    && (forall j :: 0 <= j < k && p(s[j]) ==> !le(s[j], s[k]))
  }

  lemma BestHitOfCons<T(!new)>(x: T, rest: seq<T>, le: (T, T) -> bool, p: T -> bool, k: nat)
    requires TotalPreorder(le) && IsBestHit(rest, le, p, k)
    ensures IsBestHit([x] + rest, le, p, if p(x) && le(x, rest[k]) then 0 else k + 1)
  {
    var s := [x] + rest;
    forall j | 1 <= j < |s| && p(s[j]) ensures le(rest[k], s[j]) && (j < k + 1 ==> !le(s[j], rest[k])) {
      assert s[j] == rest[j - 1];
    }
  }

  lemma BestHitAtHead<T(!new)>(x: T, rest: seq<T>, le: (T, T) -> bool, p: T -> bool)
    requires TotalPreorder(le) && p(x) && forall j :: 0 <= j < |rest| ==> !p(rest[j])
    ensures IsBestHit([x] + rest, le, p, 0)
  {
  }

  lemma SortedHasSameElements<T(!new)>(s: seq<T>, le: (T, T) -> bool)
    requires TotalPreorder(le)
    ensures forall x :: x in StableSort(s, le) <==> x in s
  {
    StableSortSorts(s, le);
    forall x ensures x in StableSort(s, le) <==> x in s {
      assert x in StableSort(s, le) <==> x in multiset(StableSort(s, le));
      assert x in s <==> x in multiset(s);
    }
  }

  /** Searching a stably sorted list finds the earliest of the least hits. */
  lemma {:induction false} FirstOfStableSort<T(!new)>(s: seq<T>, le: (T, T) -> bool, p: T -> bool) returns (k: nat)
    requires TotalPreorder(le) && exists i :: 0 <= i < |s| && p(s[i])
    ensures IsBestHit(s, le, p, k) && First(StableSort(s, le), p) == Some(s[k])
  {
    var x, rest := s[0], s[1..];
    assert s == [x] + rest;
    StableSortSorts(rest, le);
    SortedHasSameElements(rest, le);
    FirstOfInsert(x, StableSort(rest, le), le, p);
    if i :| 0 <= i < |rest| && p(rest[i]) {
      k := FirstOfStableSort(rest, le, p);
      BestHitOfCons(x, rest, le, p, k);
      k := if p(x) && le(x, rest[k]) then 0 else k + 1;
    } else {
      k := 0;
      BestHitAtHead(x, rest, le, p);
    }
  }

  lemma {:induction false} FilterOfInsert<T(!new)>(x: T, s: seq<T>, le: (T, T) -> bool, p: T -> bool)
    requires TotalPreorder(le) && Sorted(s, le)
    ensures Filter(Insert(x, s, le), p) == if p(x) then Insert(x, Filter(s, p), le) else Filter(s, p)
  {
    if s == [] || le(x, s[0]) {
      assert ([x] + s)[1..] == s;
      if Filter(s, p) != [] {
        assert Filter(s, p)[0] in s;
        assert le(x, Filter(s, p)[0]);
      }
    } else {
      var rest := Insert(x, s[1..], le);
      assert ([s[0]] + rest)[1..] == rest;
      FilterOfInsert(x, s[1..], le, p);
      if p(s[0]) {
        assert ([s[0]] + Filter(s[1..], p))[1..] == Filter(s[1..], p);
      } else {
        assert Filter(s, p) == [] + Filter(s[1..], p) == Filter(s[1..], p);
        assert Filter([s[0]] + rest, p) == [] + Filter(rest, p) == Filter(rest, p);
      }
    }
  }

  /** Selecting after a stable sort is sorting the selection. */
  lemma {:induction false} FilterOfStableSort<T(!new)>(s: seq<T>, le: (T, T) -> bool, p: T -> bool)
    requires TotalPreorder(le)
    ensures Filter(StableSort(s, le), p) == StableSort(Filter(s, p), le)
  {
    if s == [] {
    } else {
      var rest := s[1..];
      FilterOfStableSort(rest, le, p);
      StableSortSorts(rest, le);
      FilterOfInsert(s[0], StableSort(rest, le), le, p);
      hide TotalPreorder, Sorted;
      if p(s[0]) {
        assert ([s[0]] + Filter(rest, p))[1..] == Filter(rest, p);
      } else {
        assert Filter(s, p) == [] + Filter(rest, p) == Filter(rest, p);
      }
    }
  }

  lemma SortedTail<T>(s: seq<T>, le: (T, T) -> bool)
    requires Sorted(s, le) && s != []
    ensures Sorted(s[1..], le)
  {
  }

  ghost predicate NoTies<T(!new)>(s: seq<T>, le: (T, T) -> bool) {
    forall a, b :: a in s && b in s && le(a, b) && le(b, a) ==> a == b
  }

  lemma NoTiesInTail<T(!new)>(s: seq<T>, le: (T, T) -> bool)
    requires NoTies(s, le) && s != []
    ensures NoTies(s[1..], le)
  {
    assert forall a :: a in s[1..] ==> a in s;
  }

  lemma SameHead<T(!new)>(s: seq<T>, t: seq<T>, le: (T, T) -> bool)
    requires Sorted(s, le) && Sorted(t, le) && NoTies(s, le) && multiset(s) == multiset(t) && s != [] && t != []
    ensures s[0] == t[0]
  {
    assert s[0] in multiset(t) && t[0] in multiset(s);
    var j :| 0 <= j < |t| && t[j] == s[0];
    var i :| 0 <= i < |s| && s[i] == t[0];
    assert i > 0 && j > 0 ==> le(s[0], s[i]) && le(t[0], t[j]);
  }

  lemma SameTail<T>(s: seq<T>, t: seq<T>)
    requires multiset(s) == multiset(t) && s != [] && t != [] && s[0] == t[0]
    ensures multiset(s[1..]) == multiset(t[1..])
    ensures s[1..] == t[1..] ==> s == t
  {
    var u, v := s[1..], t[1..];
    assert s == [s[0]] + u && t == [s[0]] + v;
    assert multiset(u) == multiset(s) - multiset{s[0]};
    assert multiset(v) == multiset(t) - multiset{s[0]};
  }

  /** Two sorted arrangements of the same elements coincide when no two of them tie. */
  lemma {:induction false} SortedIsUnique<T(!new)>(s: seq<T>, t: seq<T>, le: (T, T) -> bool)
    requires Sorted(s, le) && Sorted(t, le) && NoTies(s, le) && multiset(s) == multiset(t)
    ensures s == t
  {
    hide Sorted, NoTies;
    assert |multiset(s)| == |multiset(t)|;
    if s != [] {
      SameHead(s, t, le);
      SameTail(s, t);
      SortedTail(s, le);
      SortedTail(t, le);
      NoTiesInTail(s, le);
      SortedIsUnique(s[1..], t[1..], le);
    }
  }

  ghost predicate BlockAt<T>(part: seq<T>, whole: seq<T>, i: nat) {
    i + |part| <= |whole| && whole[i..i + |part|] == part
  }

  /** `part` occurs contiguously in `whole` (Python's `part in whole` on strings). */
  ghost predicate Block<T>(part: seq<T>, whole: seq<T>) {
    exists i: nat :: BlockAt(part, whole, i)
  }

  lemma BlockIntro<T>(a: seq<T>, part: seq<T>, b: seq<T>)
    ensures Block(part, a + part + b)
  {
    assert BlockAt(part, a + part + b, |a|);
  }

  lemma BlockTransitive<T>(a: seq<T>, b: seq<T>, c: seq<T>)
    requires Block(a, b) && Block(b, c)
    ensures Block(a, c)
  {
    var i: nat :| BlockAt(a, b, i);
    var j: nat :| BlockAt(b, c, j);
    forall k | 0 <= k < |a| ensures c[i + j + k] == a[k] {
      assert c[j..j + |b|][i + k] == b[i + k] && b[i..i + |a|][k] == a[k];
    }
    assert c[i + j..i + j + |a|] == a;
    assert BlockAt(a, c, i + j);
  }
}
