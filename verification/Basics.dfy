/** Shared vocabulary: optional values, results, stable sorting and "best element" folds. */
module Basics {

  datatype Option<+T> = None | Some(value: T)

  datatype Result<+T, +E> = Ok(value: T) | Err(error: E)

  // ---------- sequences ----------

  function Filter<T>(s: seq<T>, p: T -> bool): (r: seq<T>) {
    if s == [] then [] else
    var rest := Filter(s[..|s| - 1], p);
    if p(s[|s| - 1]) then rest + [s[|s| - 1]] else rest
  }

  function Count<T>(s: seq<T>, p: T -> bool): (n: nat) {
    |Filter(s, p)|
  }

  function Map<T, U>(s: seq<T>, f: T -> U): (r: seq<U>)
    ensures |r| == |s|
    ensures forall i :: 0 <= i < |s| ==> r[i] == f(s[i])
  {
    seq(|s|, i requires 0 <= i < |s| => f(s[i]))
  }

  /** Filtering one element further. */
  lemma FilterStep<T>(s: seq<T>, i: nat, p: T -> bool)
    requires i < |s|
    ensures Filter(s[..0], p) == [] && Filter(s[..i + 1], p) == Filter(s[..i], p) + if p(s[i]) then [s[i]] else []
    ensures Count(s[..0], p) == 0 && Count(s[..i + 1], p) == Count(s[..i], p) + if p(s[i]) then 1 else 0
  {
    assert s[..i + 1][..i] == s[..i];
  }

  /** Filtering and mapping one element further. */
  lemma FilterMapStep<T, U>(s: seq<T>, i: nat, p: T -> bool, f: T -> U)
    requires i < |s|
    ensures Map(Filter(s[..i + 1], p), f) == Map(Filter(s[..i], p), f) + if p(s[i]) then [f(s[i])] else []
  {
    assert s[..i + 1][..i] == s[..i];
  }

  function FlatMap<T, U>(s: seq<T>, f: T -> seq<U>): seq<U> {
    if s == [] then [] else FlatMap(s[..|s| - 1], f) + f(s[|s| - 1])
  }

  lemma FlatMapStep<T, U>(s: seq<T>, i: nat, f: T -> seq<U>)
    requires i < |s|
    ensures FlatMap(s[..i + 1], f) == FlatMap(s[..i], f) + f(s[i])
  {
    assert s[..i + 1][..i] == s[..i];
  }

  lemma {:induction false} FlatMapConcat<T, U>(a: seq<T>, b: seq<T>, f: T -> seq<U>)
    ensures FlatMap(a + b, f) == FlatMap(a, f) + FlatMap(b, f)
  {
    if b == [] {
      assert a + b == a;
    } else {
      FlatMapConcat(a, b[..|b| - 1], f);
      assert (a + b)[..|a + b| - 1] == a + b[..|b| - 1];
    }
  }

  lemma FlatMapPrefix<T, U>(s: seq<T>, i: nat, f: T -> seq<U>)
    requires i <= |s|
    ensures FlatMap(s[..i], f) <= FlatMap(s, f)
  {
    assert s == s[..i] + s[i..];
    FlatMapConcat(s[..i], s[i..], f);
  }

  lemma {:induction false} FlatMapEmpty<T, U>(s: seq<T>, f: T -> seq<U>)
    ensures FlatMap(s, f) == [] <==> forall i :: 0 <= i < |s| ==> f(s[i]) == []
  {
    if s == [] {
    } else {
      FlatMapEmpty(s[..|s| - 1], f);
    }
  }

  lemma {:induction false} FlatMapMember<T, U>(s: seq<T>, f: T -> seq<U>, y: U)
    ensures y in FlatMap(s, f) <==> exists i :: 0 <= i < |s| && y in f(s[i])
  {
    if s == [] {
    } else {
      var n := |s| - 1;
      FlatMapMember(s[..n], f, y);
      assert forall i :: 0 <= i < n ==> s[..n][i] == s[i];
    }
  }

  lemma {:induction false} FlatMapSame<T, U>(s: seq<T>, f: T -> seq<U>, g: T -> seq<U>)
    requires forall x :: x in s ==> f(x) == g(x)
    ensures FlatMap(s, f) == FlatMap(s, g)
  {
    if s == [] {
    } else {
      assert s == s[..|s| - 1] + [s[|s| - 1]];
      FlatMapSame(s[..|s| - 1], f, g);
    }
  }

  function Take<T>(s: seq<T>, n: int): seq<T> {
    if n <= 0 then [] else if n >= |s| then s else s[..n]
  }

  ghost predicate Distinct<T>(s: seq<T>) {
    forall i, j :: 0 <= i < j < |s| ==> s[i] != s[j]
  }

  lemma {:induction false} FilterMember<T>(s: seq<T>, p: T -> bool, x: T)
    ensures x in Filter(s, p) <==> x in s && p(x)
  {
    if s == [] {
    } else {
      FilterMember(s[..|s| - 1], p, x);
      assert s == s[..|s| - 1] + [s[|s| - 1]];
    }
  }

  /** Where the elements of a filtered list come from: in order, and nothing that qualifies is left out. */
  ghost predicate ArePositions<T>(s: seq<T>, p: T -> bool, t: seq<T>, at: seq<nat>) {
    && |at| == |t| && (forall i :: 0 <= i < |at| ==> at[i] < |s| && t[i] == s[at[i]] && p(s[at[i]]))
    && (forall i, j :: 0 <= i < j < |at| ==> at[i] < at[j]) && AllListed(s, p, at)
  }

  ghost predicate AllListed<T>(s: seq<T>, p: T -> bool, at: seq<nat>) {
    forall k :: 0 <= k < |s| && p(s[k]) ==> k in at
  }

  /** As many positions as there are, at most. */
  lemma {:induction false} FewPositions(at: seq<nat>, n: nat)
    requires forall i, j :: 0 <= i < j < |at| ==> at[i] < at[j]
    requires forall i :: 0 <= i < |at| ==> at[i] < n
    ensures |at| <= n
  {
    if at == [] {
    } else {
      FewPositions(at[..|at| - 1], at[|at| - 1]);
    }
  }

  lemma OnePositionMore<T>(s: seq<T>, x: T, p: T -> bool, t: seq<T>, at: seq<nat>)
    requires ArePositions(s, p, t, at)
    ensures if p(x) then ArePositions(s + [x], p, t + [x], at + [|s|]) else ArePositions(s + [x], p, t, at)
  {
    var more, all := s + [x], if p(x) then at + [|s|] else at;
    assert forall i :: 0 <= i < |s| ==> more[i] == s[i];
    forall k | 0 <= k < |more| && p(more[k]) ensures k in all {
      if k < |s| {
        var i :| 0 <= i < |at| && at[i] == k;
        assert all[i] == k;
      } else {
        assert all[|at|] == k;
      }
    }
  }

  lemma {:induction false} FilterPositions<T>(s: seq<T>, p: T -> bool) returns (at: seq<nat>)
    ensures ArePositions(s, p, Filter(s, p), at)
  {
    if s == [] {
      at := [];
    } else {
      var front, last := s[..|s| - 1], s[|s| - 1];
      at := FilterPositions(front, p);
      assert s == front + [last];
      assert Filter(s, p) == if p(last) then Filter(front, p) + [last] else Filter(front, p);
      hide ArePositions, Filter;
      OnePositionMore(front, last, p, Filter(front, p), at);
      at := if p(last) then at + [|front|] else at;
    }
  }

  /** The elements of s that satisfy p, in order. */
  ghost predicate IsSublist<T>(s: seq<T>, p: T -> bool, t: seq<T>) {
    exists at :: ArePositions(s, p, t, at)
  }

  lemma FilterIsSublist<T>(s: seq<T>, p: T -> bool)
    ensures IsSublist(s, p, Filter(s, p))
  {
    var at := FilterPositions(s, p);
  }

  lemma {:induction false} FilterMapped<T, U>(s: seq<T>, f: T -> U, p: U -> bool, q: T -> bool)
    requires forall x :: x in s ==> (q(x) <==> p(f(x)))
    ensures Filter(Map(s, f), p) == Map(Filter(s, q), f)
  {
    if s == [] {
    } else {
      var front, last := s[..|s| - 1], s[|s| - 1];
      assert last in s && forall x :: x in front ==> x in s;
      FilterMapped(front, f, p, q);
      assert Map(s, f)[..|s| - 1] == Map(front, f);
    }
  }

  lemma {:induction false} FilterTwice<T>(s: seq<T>, p: T -> bool, q: T -> bool, both: T -> bool)
    requires forall x :: x in s ==> (both(x) <==> p(x) && q(x))
    ensures Filter(Filter(s, p), q) == Filter(s, both)
  {
    if s == [] {
    } else {
      var front, last := s[..|s| - 1], s[|s| - 1];
      assert last in s && forall x :: x in front ==> x in s;
      FilterTwice(front, p, q, both);
      if p(last) {
        assert (Filter(front, p) + [last])[..|Filter(front, p)|] == Filter(front, p);
      }
    }
  }

  lemma FilterMembers<T>(s: seq<T>, p: T -> bool)
    ensures forall x :: x in Filter(s, p) <==> x in s && p(x)
  {
    forall x ensures x in Filter(s, p) <==> x in s && p(x) {
      FilterMember(s, p, x);
    }
  }

  lemma {:induction false} FirstOfFilter<T>(s: seq<T>, p: T -> bool, i: nat)
    requires i < |s| && p(s[i]) && forall j :: 0 <= j < i ==> !p(s[j])
    ensures Filter(s, p) != [] && Filter(s, p)[0] == s[i]
  {
    if i < |s| - 1 {
      FirstOfFilter(s[..|s| - 1], p, i);
    } else {
      FilterNone(s[..i], p);
    }
  }

  /** The first element that satisfies p, if some element does. */
  lemma {:induction false} FirstIndex<T>(s: seq<T>, p: T -> bool, i: nat) returns (k: nat)
    requires i < |s| && p(s[i])
    ensures k <= i && p(s[k]) && forall j :: 0 <= j < k ==> !p(s[j])
    decreases i
  {
    if j: nat :| j < i && p(s[j]) {
      k := FirstIndex(s, p, j);
    } else {
      k := i;
    }
  }

  lemma CountZero<T>(s: seq<T>, p: T -> bool)
    ensures Count(s, p) == 0 <==> forall i :: 0 <= i < |s| ==> !p(s[i])
  {
    if Count(s, p) != 0 {
      FilterMember(s, p, Filter(s, p)[0]);
      assert Filter(s, p)[0] in Filter(s, p);
    }
    forall i | 0 <= i < |s| && p(s[i]) ensures Count(s, p) != 0 {
      FilterMember(s, p, s[i]);
    }
  }

  /** The places of a list that satisfy p. */
  ghost function Places<T>(s: seq<T>, p: T -> bool): set<nat> {
    set i: nat | i < |s| && p(s[i])
  }

  lemma OnePlaceMore<T>(s: seq<T>, x: T, p: T -> bool)
    ensures Places(s + [x], p) == (if p(x) then Places(s, p) + {|s|} else Places(s, p)) && |s| !in Places(s, p)
  {
    var more := s + [x];
    forall i: nat ensures i in Places(more, p) <==> i in Places(s, p) || (i == |s| && p(x)) {
      if i < |s| {
        assert more[i] == s[i];
      }
    }
  }

  /** Counting is counting places. */
  lemma {:induction false} CountIs<T>(s: seq<T>, p: T -> bool)
    ensures Count(s, p) == |Places(s, p)|
  {
    if s == [] {
      assert Places(s, p) == {};
    } else {
      var front, last := s[..|s| - 1], s[|s| - 1];
      CountIs(front, p);
      hide Places;
      OnePlaceMore(front, last, p);
      assert s == front + [last];
    }
  }

  lemma CountAlso<T>(s: seq<T>, p: T -> bool, q: T -> bool)
    requires forall x :: x in s ==> (p(x) <==> q(x))
    ensures Count(s, p) == |Places(s, q)|
  {
    CountIs(s, p);
    assert Places(s, p) == Places(s, q);
  }

  lemma SublistAlso<T>(s: seq<T>, p: T -> bool, q: T -> bool)
    requires forall x :: x in s ==> (p(x) <==> q(x))
    ensures IsSublist(s, q, Filter(s, p))
  {
    var at := FilterPositions(s, p);
    assert ArePositions(s, q, Filter(s, p), at);
  }

  lemma {:induction false} FilterAll<T>(s: seq<T>, p: T -> bool)
    requires forall x :: x in s ==> p(x)
    ensures Filter(s, p) == s
  {
    if s == [] {
    } else {
      assert s == s[..|s| - 1] + [s[|s| - 1]];
      FilterAll(s[..|s| - 1], p);
    }
  }

  lemma {:induction false} FilterNone<T>(s: seq<T>, p: T -> bool)
    requires forall x :: x in s ==> !p(x)
    ensures Filter(s, p) == []
  {
    if s == [] {
    } else {
      assert s == s[..|s| - 1] + [s[|s| - 1]];
      FilterNone(s[..|s| - 1], p);
    }
  }

  lemma {:induction false} FilterConcat<T>(a: seq<T>, b: seq<T>, p: T -> bool)
    ensures Filter(a + b, p) == Filter(a, p) + Filter(b, p)
  {
    if b == [] {
      assert a + b == a;
    } else {
      var n := |b| - 1;
      assert (a + b)[..|a + b| - 1] == a + b[..n];
      FilterConcat(a, b[..n], p);
    }
  }

  lemma DropOne<T>(s: seq<T>, i: nat)
    requires i < |s|
    ensures multiset(s) == multiset(s[..i] + s[i + 1..]) + multiset{s[i]}
  {
    assert s == s[..i] + [s[i]] + s[i + 1..];
  }

  lemma DropLast<T>(s: seq<T>)
    requires s != []
    ensures multiset(s) == multiset(s[..|s| - 1]) + multiset{s[|s| - 1]}
  {
    assert s == s[..|s| - 1] + [s[|s| - 1]];
  }

  lemma CancelOne<T>(a: multiset<T>, b: multiset<T>, x: T)
    requires a + multiset{x} == b + multiset{x}
    ensures a == b
  {
    assert a == (a + multiset{x}) - multiset{x};
    assert b == (b + multiset{x}) - multiset{x};
  }

  /** Permutations of s put its last element somewhere; removing it leaves permutations. */
  lemma FindLast<T>(s: seq<T>, t: seq<T>) returns (i: nat)
    requires s != [] && multiset(s) == multiset(t)
    ensures i < |t| && t[i] == s[|s| - 1]
    ensures multiset(s[..|s| - 1]) == multiset(t[..i] + t[i + 1..])
  {
    var x := s[|s| - 1];
    assert x in multiset(s);
    assert x in t;
    i :| 0 <= i < |t| && t[i] == x;
    DropLast(s);
    DropOne(t, i);
    CancelOne(multiset(s[..|s| - 1]), multiset(t[..i] + t[i + 1..]), x);
  }

  lemma SameSize<T>(s: seq<T>, t: seq<T>)
    requires multiset(s) == multiset(t)
    ensures |s| == |t|
  {
    assert |multiset(s)| == |s| && |multiset(t)| == |t|;
  }

  lemma FilterAround<T>(s: seq<T>, i: nat, p: T -> bool)
    requires i < |s|
    ensures multiset(Filter(s, p))
         == multiset(Filter(s[..i] + s[i + 1..], p)) + if p(s[i]) then multiset{s[i]} else multiset{}
  {
    var a, x, b := s[..i], s[i], s[i + 1..];
    assert s == a + ([x] + b);
    FilterConcat(a, [x] + b, p);
    FilterConcat([x], b, p);
    FilterConcat(a, b, p);
    FilterOne(x, p);
  }

  lemma FilterOne<T>(x: T, p: T -> bool)
    ensures Filter([x], p) == if p(x) then [x] else []
  {
    assert [x][..0] == [];
  }

  lemma {:induction false} PermutedCount<T>(s: seq<T>, t: seq<T>, p: T -> bool)
    requires multiset(s) == multiset(t)
    ensures multiset(Filter(s, p)) == multiset(Filter(t, p))
    ensures Count(s, p) == Count(t, p)
  {
    SameSize(s, t);
    if s == [] {
    } else {
      var i := FindLast(s, t);
      PermutedCount(s[..|s| - 1], t[..i] + t[i + 1..], p);
      FilterAround(t, i, p);
    }
    SameSize(Filter(s, p), Filter(t, p));
  }

  /** Lists without repetition that have the same members are permutations of each other. */
  lemma {:induction false} DistinctPermuted<T>(s: seq<T>, t: seq<T>)
    requires Distinct(s) && Distinct(t)
    requires forall x :: x in s <==> x in t
    ensures multiset(s) == multiset(t)
  {
    if t != [] {
      assert t[0] in t;
    }
    if s == [] {
    } else {
      var front, x := s[..|s| - 1], s[|s| - 1];
      assert x in t;
      var i :| 0 <= i < |t| && t[i] == x;
      var rest := t[..i] + t[i + 1..];
      MembersWithoutOne(s, |s| - 1);
      MembersWithoutOne(t, i);
      assert s[..|s| - 1] + s[|s| - 1 + 1..] == front;
      forall y ensures y in front <==> y in rest {
        assert y in s <==> y in t;
      }
      DistinctPermuted(front, rest);
      DropLast(s);
      DropOne(t, i);
    }
  }

  function Dedup<T(==, !new)>(s: seq<T>): (r: seq<T>)
    ensures forall x :: x in r <==> x in s
    ensures Distinct(r)
  {
    if s == [] then [] else
    var rest := Dedup(s[..|s| - 1]);
    assert s == s[..|s| - 1] + [s[|s| - 1]];
    if s[|s| - 1] in rest then rest else rest + [s[|s| - 1]]
  }

  lemma {:induction false} DistinctOnce<T>(s: seq<T>, x: T)
    requires Distinct(s)
    ensures multiset(s)[x] <= 1
  {
    if s == [] {
    } else {
      DistinctOnce(s[..|s| - 1], x);
      DropLast(s);
      if multiset(s[..|s| - 1])[x] > 0 {
        assert x in s[..|s| - 1];
      }
    }
  }

  lemma DistinctPermutation<T>(s: seq<T>, t: seq<T>)
    requires Distinct(s) && multiset(s) == multiset(t)
    ensures Distinct(t)
  {
    forall i, j | 0 <= i < j < |t| ensures t[i] != t[j] {
      DistinctOnce(s, t[j]);
      DropOne(t, j);
      assert (t[..j] + t[j + 1..])[i] == t[i];
      assert t[i] in multiset(t[..j] + t[j + 1..]);
    }
  }

  lemma MembersWithoutOne<T>(t: seq<T>, i: nat)
    requires Distinct(t) && i < |t|
    ensures Distinct(t[..i] + t[i + 1..])
    ensures forall y :: y in t[..i] + t[i + 1..] <==> y in t && y != t[i]
  {
    var rest := t[..i] + t[i + 1..];
    forall y | y in t && y != t[i] ensures y in rest {
      var j :| 0 <= j < |t| && t[j] == y;
      assert rest[if j < i then j else j - 1] == y;
    }
  }

  /** A test and its complement split a list in two. */
  lemma {:induction false} FilterSplits<T>(s: seq<T>, p: T -> bool, q: T -> bool)
    requires forall x :: x in s ==> (p(x) <==> !q(x))
    ensures multiset(s) == multiset(Filter(s, p)) + multiset(Filter(s, q))
    ensures Count(s, p) + Count(s, q) == |s|
  {
    if s == [] {
    } else {
      assert s[|s| - 1] in s;
      FilterSplits(s[..|s| - 1], p, q);
      DropLast(s);
    }
  }

  lemma {:induction false} FilterSorted<T>(s: seq<T>, p: T -> bool, leq: (T, T) -> bool)
    requires SortedBy(s, leq)
    ensures SortedBy(Filter(s, p), leq)
  {
    if s == [] {
    } else {
      FilterSorted(s[..|s| - 1], p, leq);
      var front := s[..|s| - 1];
      var rest := Filter(front, p);
      forall i | 0 <= i < |rest| ensures leq(rest[i], s[|s| - 1]) {
        FilterMember(front, p, rest[i]);
        assert rest[i] in rest;
        var k :| 0 <= k < |front| && front[k] == rest[i];
      }
    }
  }

  lemma {:induction false} FilterDistinct<T>(s: seq<T>, p: T -> bool)
    requires Distinct(s)
    ensures Distinct(Filter(s, p))
  {
    if s == [] {
    } else {
      FilterDistinct(s[..|s| - 1], p);
      FilterMembers(s[..|s| - 1], p);
    }
  }

  /** Counting inside a sublist is counting both conditions at once. */
  lemma {:induction false} CountBoth<T>(s: seq<T>, p: T -> bool, q: T -> bool, both: T -> bool)
    requires forall x :: x in s ==> (both(x) <==> p(x) && q(x))
    ensures Count(Filter(s, p), q) == Count(s, both)
  {
    if s == [] {
    } else {
      var front, last := s[..|s| - 1], s[|s| - 1];
      assert last in s && forall x :: x in front ==> x in s;
      CountBoth(front, p, q, both);
      if p(last) {
        assert (Filter(front, p) + [last])[..|Filter(front, p)|] == Filter(front, p);
      }
    }
  }

  // ---------- stable sorting ----------

  ghost predicate TotalPreorder<T(!new)>(leq: (T, T) -> bool) {
    && (forall x, y :: leq(x, y) || leq(y, x))
    && (forall x, y, z :: leq(x, y) && leq(y, z) ==> leq(x, z))
  }

  ghost predicate SortedBy<T>(s: seq<T>, leq: (T, T) -> bool) {
    forall i, j :: 0 <= i < j < |s| ==> leq(s[i], s[j])
  }

  /** Puts x behind every element that is not strictly above it. */
  function Insert<T>(t: seq<T>, x: T, leq: (T, T) -> bool): seq<T> {
    if t == [] || leq(t[|t| - 1], x) then t + [x]
    else Insert(t[..|t| - 1], x, leq) + [t[|t| - 1]]
  }

  /** The stable sort that Python's `sorted` and `list.sort` promise. */
  function StableSort<T>(s: seq<T>, leq: (T, T) -> bool): seq<T> {
    if s == [] then [] else Insert(StableSort(s[..|s| - 1], leq), s[|s| - 1], leq)
  }

  lemma {:induction false} InsertPermutes<T>(t: seq<T>, x: T, leq: (T, T) -> bool)
    ensures multiset(Insert(t, x, leq)) == multiset(t) + multiset{x}
  {
    if t == [] || leq(t[|t| - 1], x) {
    } else {
      InsertPermutes(t[..|t| - 1], x, leq);
      assert t == t[..|t| - 1] + [t[|t| - 1]];
    }
  }

  lemma {:induction false} SortPermutes<T>(s: seq<T>, leq: (T, T) -> bool)
    ensures multiset(StableSort(s, leq)) == multiset(s)
    ensures |StableSort(s, leq)| == |s|
  {
    if s == [] {
    } else {
      SortPermutes(s[..|s| - 1], leq);
      InsertPermutes(StableSort(s[..|s| - 1], leq), s[|s| - 1], leq);
      assert s == s[..|s| - 1] + [s[|s| - 1]];
    }
    assert |multiset(StableSort(s, leq))| == |multiset(s)|;
  }

  lemma SameMembers<T>(s: seq<T>, t: seq<T>)
    requires multiset(s) == multiset(t)
    ensures forall x :: x in s <==> x in t
  {
    forall x ensures x in s <==> x in t {
      assert x in s <==> x in multiset(s);
      assert x in t <==> x in multiset(t);
    }
  }

  lemma {:induction false} InsertSorted<T(!new)>(t: seq<T>, x: T, leq: (T, T) -> bool)
    requires TotalPreorder(leq) && SortedBy(t, leq)
    ensures SortedBy(Insert(t, x, leq), leq)
  {
    if t == [] || leq(t[|t| - 1], x) {
    } else {
      var front, y := t[..|t| - 1], t[|t| - 1];
      InsertSorted(front, x, leq);
      InsertPermutes(front, x, leq);
      SameMembers(Insert(front, x, leq), front + [x]);
      forall z | z in Insert(front, x, leq) ensures leq(z, y) {
        assert z in front + [x];
        if z != x {
          var k :| 0 <= k < |front| && front[k] == z;
        }
      }
    }
  }

  lemma {:induction false} SortSorted<T(!new)>(s: seq<T>, leq: (T, T) -> bool)
    requires TotalPreorder(leq)
    ensures SortedBy(StableSort(s, leq), leq)
  {
    if s == [] {
    } else {
      SortSorted(s[..|s| - 1], leq);
      InsertSorted(StableSort(s[..|s| - 1], leq), s[|s| - 1], leq);
    }
  }

  /** The list t is made of the elements of s at these positions, each position once, in order; of elements
      that rank equal the one listed first in s comes first. */
  ghost predicate Arranges<T>(s: seq<T>, leq: (T, T) -> bool, t: seq<T>, at: seq<nat>) {
    && |at| == |t| && (forall i :: 0 <= i < |at| ==> at[i] < |s| && t[i] == s[at[i]])
    && (forall i, j :: 0 <= i < j < |at| ==> at[i] != at[j])
    && (forall i, j :: 0 <= i < j < |at| ==> leq(t[i], t[j]) && (leq(t[j], t[i]) ==> at[i] < at[j]))
  }

  lemma ArrangeEnd<T(!new)>(s: seq<T>, leq: (T, T) -> bool, t: seq<T>, at: seq<nat>, x: T, k: nat)
    requires TotalPreorder(leq) && Arranges(s, leq, t, at) && k < |s| && s[k] == x
    requires forall i :: 0 <= i < |t| ==> leq(t[i], x) && at[i] != k && (leq(x, t[i]) ==> at[i] < k)
    ensures Arranges(s, leq, t + [x], at + [k])
  {
  }

  lemma {:induction false} ArrangeInsert<T(!new)>(s: seq<T>, leq: (T, T) -> bool, t: seq<T>, at: seq<nat>, x: T, k: nat)
    returns (more: seq<nat>)
    requires TotalPreorder(leq) && Arranges(s, leq, t, at) && k < |s| && s[k] == x
    requires forall i :: 0 <= i < |at| ==> at[i] < k
    ensures Arranges(s, leq, Insert(t, x, leq), more) && |more| == |at| + 1
    ensures forall p :: p in more <==> p in at || p == k
  {
    if t == [] || leq(t[|t| - 1], x) {
      more := at + [k];
      forall i | 0 <= i < |t| ensures leq(t[i], x) {
        if i < |t| - 1 { assert leq(t[i], t[|t| - 1]); }
      }
      ArrangeEnd(s, leq, t, at, x, k);
    } else {
      var n := |t| - 1;
      assert Arranges(s, leq, t[..n], at[..n]);
      var front := ArrangeInsert(s, leq, t[..n], at[..n], x, k);
      more := front + [at[n]];
      assert at == at[..n] + [at[n]];
      ArrangeBack(s, leq, t, at, x, k, front);
    }
  }

  lemma ArrangeBack<T(!new)>(s: seq<T>, leq: (T, T) -> bool, t: seq<T>, at: seq<nat>, x: T, k: nat, front: seq<nat>)
    requires TotalPreorder(leq) && Arranges(s, leq, t, at) && t != [] && k < |s| && s[k] == x
    requires !leq(t[|t| - 1], x) && forall i :: 0 <= i < |at| ==> at[i] < k
    requires Arranges(s, leq, Insert(t[..|t| - 1], x, leq), front)
    requires forall p :: p in front <==> p in at[..|t| - 1] || p == k
    ensures Arranges(s, leq, Insert(t[..|t| - 1], x, leq) + [t[|t| - 1]], front + [at[|t| - 1]])
  {
    var n := |t| - 1;
    var u := Insert(t[..n], x, leq);
    forall i | 0 <= i < |u| ensures leq(u[i], t[n]) && front[i] != at[n] && (leq(t[n], u[i]) ==> front[i] < at[n]) {
      assert front[i] in front;
      if front[i] != k {
        var j :| 0 <= j < n && at[j] == front[i];
        assert u[i] == t[j] && leq(t[j], t[n]);
      }
    }
    ArrangeEnd(s, leq, u, front, t[n], at[n]);
  }

  lemma ArrangeMore<T>(s: seq<T>, x: T, leq: (T, T) -> bool, t: seq<T>, at: seq<nat>)
    requires Arranges(s, leq, t, at)
    ensures Arranges(s + [x], leq, t, at)
  {
    assert forall i :: 0 <= i < |at| ==> (s + [x])[at[i]] == s[at[i]];
  }

  /** What a stable sort does. */
  lemma {:induction false} SortArranges<T(!new)>(s: seq<T>, leq: (T, T) -> bool) returns (at: seq<nat>)
    requires TotalPreorder(leq)
    ensures Arranges(s, leq, StableSort(s, leq), at) && |at| == |s|
    ensures forall k :: 0 <= k < |s| ==> k in at
  {
    if s == [] {
      at := [];
    } else {
      var n := |s| - 1;
      var front := SortArranges(s[..n], leq);
      assert s == s[..n] + [s[n]];
      ArrangeMore(s[..n], s[n], leq, StableSort(s[..n], leq), front);
      at := ArrangeInsert(s, leq, StableSort(s[..n], leq), front, s[n], n);
    }
  }

  /** No two different elements of s rank equal. */
  ghost predicate NoTies<T>(s: seq<T>, leq: (T, T) -> bool) {
    forall x, y :: x in s && y in s && leq(x, y) && leq(y, x) ==> x == y
  }

  lemma SortedLast<T>(s: seq<T>, t: seq<T>, leq: (T, T) -> bool)
    requires s != [] && t != [] && multiset(s) == multiset(t)
    requires SortedBy(s, leq) && SortedBy(t, leq) && NoTies(s, leq)
    ensures s[|s| - 1] == t[|t| - 1]
  {
    var x, y := s[|s| - 1], t[|t| - 1];
    SameMembers(s, t);
    assert x in s && y in t;
    var i :| 0 <= i < |t| && t[i] == x;
    var j :| 0 <= j < |s| && s[j] == y;
    if i < |t| - 1 && j < |s| - 1 {
      assert leq(t[i], y) && leq(s[j], x);
    }
  }

  /** Where ties are impossible, a sorted arrangement is determined by the elements alone. */
  lemma {:induction false} SortedUnique<T>(s: seq<T>, t: seq<T>, leq: (T, T) -> bool)
    requires multiset(s) == multiset(t)
    requires SortedBy(s, leq) && SortedBy(t, leq) && NoTies(s, leq)
    ensures s == t
  {
    SameSize(s, t);
    if s == [] {
    } else {
      SortedLast(s, t, leq);
      var front, back := s[..|s| - 1], t[..|t| - 1];
      DropLast(s);
      DropLast(t);
      CancelOne(multiset(front), multiset(back), s[|s| - 1]);
      assert forall x :: x in front ==> x in s;
      SortedUnique(front, back, leq);
      assert s == front + [s[|s| - 1]] && t == back + [t[|t| - 1]];
    }
  }

  // ---------- folding to the best element ----------

  /** One step of "keep the candidate unless the current one is strictly above it". */
  function Better<T>(current: Option<T>, candidate: T, leq: (T, T) -> bool): Option<T> {
    match current
    case None => Some(candidate)
    case Some(c) => if leq(c, candidate) then Some(candidate) else current
  }

  function Best<T>(s: seq<T>, p: T -> bool, leq: (T, T) -> bool): Option<T> {
    if s == [] then None else
    var rest := Best(s[..|s| - 1], p, leq);
    if p(s[|s| - 1]) then Better(rest, s[|s| - 1], leq) else rest
  }

  /** `i` is the last-listed maximal element among those that satisfy p. */
  ghost predicate IsBestAt<T>(s: seq<T>, p: T -> bool, leq: (T, T) -> bool, i: nat) {
    && i < |s| && p(s[i])
    && (forall j :: 0 <= j < |s| && p(s[j]) ==> leq(s[j], s[i]))
    && (forall j :: i < j < |s| && p(s[j]) ==> !leq(s[i], s[j]))
  }

  /** The first qualifying element is the best one so far. */
  lemma FirstBest<T>(s: seq<T>, p: T -> bool, leq: (T, T) -> bool)
    requires s != [] && p(s[|s| - 1]) && leq(s[|s| - 1], s[|s| - 1]) && forall i :: 0 <= i < |s| - 1 ==> !p(s[i])
    ensures IsBestAt(s, p, leq, |s| - 1)
  {
  }

  /** One more element. */
  lemma BestMore<T(!new)>(s: seq<T>, x: T, p: T -> bool, leq: (T, T) -> bool, i: nat)
    requires TotalPreorder(leq) && IsBestAt(s, p, leq, i)
    ensures IsBestAt(s + [x], p, leq, if p(x) && leq(s[i], x) then |s| else i)
  {
    var more := s + [x];
    var k := if p(x) && leq(s[i], x) then |s| else i;
    forall j | 0 <= j < |more| && p(more[j]) ensures leq(more[j], more[k]) && (k < j ==> !leq(more[k], more[j])) {
      if j < |s| {
        assert leq(s[j], s[i]) && (i < j ==> !leq(s[i], s[j]));
      }
    }
  }

  lemma {:induction false} BestIsLastMaximal<T(!new)>(s: seq<T>, p: T -> bool, leq: (T, T) -> bool)
    requires TotalPreorder(leq)
    ensures Best(s, p, leq).None? <==> (forall i :: 0 <= i < |s| ==> !p(s[i]))
    ensures Best(s, p, leq).Some? ==> exists i: nat :: IsBestAt(s, p, leq, i) && Best(s, p, leq) == Some(s[i])
  {
    if s == [] {
    } else {
      var front, x := s[..|s| - 1], s[|s| - 1];
      BestIsLastMaximal(front, p, leq);
      if Best(front, p, leq).Some? {
        var i: nat :| IsBestAt(front, p, leq, i) && Best(front, p, leq) == Some(front[i]);
        BestMore(front, x, p, leq, i);
        assert front + [x] == s;
      } else if p(x) {
        FirstBest(s, p, leq);
      }
    }
  }

  /** Elements that the sort may exchange are never tied in the ranking. */
  ghost predicate SwapsAreStrict<T(!new)>(sortLeq: (T, T) -> bool, leq: (T, T) -> bool) {
    forall x, y :: !sortLeq(y, x) ==> !(leq(x, y) && leq(y, x))
  }

  lemma {:induction false} BestInsert<T(!new)>(
      t: seq<T>, x: T, p: T -> bool, sortLeq: (T, T) -> bool, leq: (T, T) -> bool)
    requires TotalPreorder(leq) && SwapsAreStrict(sortLeq, leq)
    ensures Best(Insert(t, x, sortLeq), p, leq) == Best(t + [x], p, leq)
  {
    assert (t + [x])[..|t|] == t;
    if t == [] || sortLeq(t[|t| - 1], x) {
    } else {
      var front, y := t[..|t| - 1], t[|t| - 1];
      BestInsert(front, x, p, sortLeq, leq);
      var ins := Insert(front, x, sortLeq);
      assert (ins + [y])[..|ins|] == ins;
      assert (front + [x])[..|front|] == front;
    }
  }

  /** Stable sorting is invisible to the fold. */
  lemma {:induction false} BestOfSorted<T(!new)>(
      s: seq<T>, p: T -> bool, sortLeq: (T, T) -> bool, leq: (T, T) -> bool)
    requires TotalPreorder(leq) && SwapsAreStrict(sortLeq, leq)
    ensures Best(StableSort(s, sortLeq), p, leq) == Best(s, p, leq)
  {
    if s == [] {
    } else {
      var n := |s| - 1;
      BestOfSorted(s[..n], p, sortLeq, leq);
      BestInsert(StableSort(s[..n], sortLeq), s[n], p, sortLeq, leq);
      var t := StableSort(s[..n], sortLeq);
      assert (t + [s[n]])[..|t|] == t;
    }
  }

  /** In a list in order, the best element is the last one that qualifies. */
  lemma {:induction false} BestOfOrdered<T(!new)>(t: seq<T>, p: T -> bool, leq: (T, T) -> bool, k: nat)
    requires SortedBy(t, leq) && TotalPreorder(leq)
    requires k < |t| && p(t[k]) && forall j :: k < j < |t| ==> !p(t[j])
    ensures Best(t, p, leq) == Some(t[k])
  {
    var n := |t| - 1;
    if k < n {
      BestOfOrdered(t[..n], p, leq, k);
    } else {
      BestIsLastMaximal(t[..n], p, leq);
    }
  }

  /** Scanning a stably sorted list from its end finds the last-listed maximal qualifying element. */
  lemma LastOfSorted<T(!new)>(s: seq<T>, p: T -> bool, leq: (T, T) -> bool, k: nat)
    requires TotalPreorder(leq)
    requires var t := StableSort(s, leq); k < |t| && p(t[k]) && forall j :: k < j < |t| ==> !p(t[j])
    ensures exists i: nat :: IsBestAt(s, p, leq, i) && StableSort(s, leq)[k] == s[i]
  {
    SortSorted(s, leq);
    BestOfOrdered(StableSort(s, leq), p, leq, k);
    BestOfSorted(s, p, leq, leq);
    BestIsLastMaximal(s, p, leq);
  }

  lemma NoneOfSorted<T(!new)>(s: seq<T>, p: T -> bool, leq: (T, T) -> bool)
    requires forall x :: x in StableSort(s, leq) ==> !p(x)
    ensures forall x :: x in s ==> !p(x)
  {
    SortPermutes(s, leq);
    SameMembers(StableSort(s, leq), s);
  }

  /** What comes before enters the fold only through its own best. */
  lemma {:induction false} BestThen<T>(a: seq<T>, b: seq<T>, rest: seq<T>, p: T -> bool, leq: (T, T) -> bool)
    requires Best(a, p, leq) == Best(b, p, leq)
    ensures Best(a + rest, p, leq) == Best(b + rest, p, leq)
  {
    if rest == [] {
      assert a + rest == a && b + rest == b;
    } else {
      var n := |rest| - 1;
      BestThen(a, b, rest[..n], p, leq);
      assert (a + rest)[..|a + rest| - 1] == a + rest[..n];
      assert (b + rest)[..|b + rest| - 1] == b + rest[..n];
    }
  }

  // ---------- text ----------

  /** Lexicographic order on strings, by code point. */
  predicate TextLeq(a: string, b: string) {
    a == "" || (b != "" && (a[0] < b[0] || (a[0] == b[0] && TextLeq(a[1..], b[1..]))))
  }

  lemma {:induction false} TextLeqTotal(a: string, b: string)
    ensures TextLeq(a, b) || TextLeq(b, a)
    ensures TextLeq(a, b) && TextLeq(b, a) ==> a == b
  {
    if a == "" || b == "" || a[0] != b[0] {
    } else {
      TextLeqTotal(a[1..], b[1..]);
      assert a == [a[0]] + a[1..] && b == [b[0]] + b[1..];
    }
  }

  lemma {:induction false} TextLeqTransitive(a: string, b: string, c: string)
    requires TextLeq(a, b) && TextLeq(b, c)
    ensures TextLeq(a, c)
  {
    if a == "" || a[0] != b[0] || b[0] != c[0] {
    } else {
      TextLeqTransitive(a[1..], b[1..], c[1..]);
    }
  }

  lemma TextLeqOrder()
    ensures TotalPreorder(TextLeq)
    ensures forall a, b :: TextLeq(a, b) && TextLeq(b, a) ==> a == b
  {
    forall a, b ensures TextLeq(a, b) || TextLeq(b, a)
                ensures TextLeq(a, b) && TextLeq(b, a) ==> a == b
    {
      TextLeqTotal(a, b);
    }
    forall a, b, c | TextLeq(a, b) && TextLeq(b, c) ensures TextLeq(a, c) {
      TextLeqTransitive(a, b, c);
    }
  }

  /** The first difference decides, and a text comes before its continuations. */
  lemma {:induction false} TextLeqMeans(a: string, b: string)
    ensures TextLeq(a, b) <==> a <= b || exists i: nat :: i < |a| && i < |b| && a[..i] == b[..i] && a[i] < b[i]
  {
    if a == "" || b == "" || a[0] != b[0] {
      if a != "" && b != "" {
        assert a[..0] == b[..0];
      }
    } else {
      var x, y := a[1..], b[1..];
      TextLeqMeans(x, y);
      assert a == [a[0]] + x && b == [b[0]] + y;
      if i: nat :| i < |x| && i < |y| && x[..i] == y[..i] && x[i] < y[i] {
        assert a[..i + 1] == [a[0]] + x[..i] && b[..i + 1] == [b[0]] + y[..i];
        assert a[i + 1] < b[i + 1];
      }
      if i: nat :| i < |a| && i < |b| && a[..i] == b[..i] && a[i] < b[i] {
        assert i > 0;
        assert x[..i - 1] == a[..i][1..] && y[..i - 1] == b[..i][1..];
        assert x[i - 1] < y[i - 1];
      }
    }
  }
}
