/** Sequence operations shared by the engine: mapping, filtering, sorting and appending once. */
module Sequences {
  function Map<A, B>(f: A -> B, s: seq<A>): (r: seq<B>)
    ensures |r| == |s| && forall i :: 0 <= i < |s| ==> r[i] == f(s[i])
  {
    seq(|s|, i requires 0 <= i < |s| => f(s[i]))
  }

  lemma MapSnoc<A, B>(f: A -> B, s: seq<A>, x: A)
    ensures Map(f, s + [x]) == Map(f, s) + [f(x)]
  {
  }

  lemma MapMembers<A, B(!new)>(f: A -> B, s: seq<A>)
    ensures forall y :: y in Map(f, s) <==> exists x :: x in s && f(x) == y
  {
    var r := Map(f, s);
    forall y | y in r ensures exists x :: x in s && f(x) == y {
      var i :| 0 <= i < |r| && r[i] == y;
      assert s[i] in s;
    }
    forall x | x in s ensures f(x) in r {
      var i :| 0 <= i < |s| && s[i] == x;
      assert r[i] == f(x);
    }
  }

  /** Keeps the elements that satisfy the test, in order. */
  function Filter<T(!new)>(keep: T -> bool, s: seq<T>): (r: seq<T>)
    ensures forall x :: x in r <==> x in s && keep(x)
    ensures |r| <= |s|
  {
    if s == [] then []
    else
      var last := s[|s| - 1];
      assert forall x :: x in s <==> x in s[..|s| - 1] || x == last;
      Filter(keep, s[..|s| - 1]) + if keep(last) then [last] else []
  }

  lemma FilterSnoc<T(!new)>(keep: T -> bool, s: seq<T>, x: T)
    ensures Filter(keep, s + [x]) == Filter(keep, s) + if keep(x) then [x] else []
  {
    assert (s + [x])[..|s|] == s;
  }

  // One more element, as loops take them

  lemma FilterNext<T(!new)>(keep: T -> bool, s: seq<T>, i: nat)
    requires i < |s|
    ensures Filter(keep, s[..i + 1]) == Filter(keep, s[..i]) + if keep(s[i]) then [s[i]] else []
  {
    assert s[..i + 1] == s[..i] + [s[i]];
    FilterSnoc(keep, s[..i], s[i]);
  }

  lemma MapFilterNext<T(!new), U>(f: T -> U, keep: T -> bool, s: seq<T>, i: nat)
    requires i < |s|
    ensures Map(f, Filter(keep, s[..i + 1])) == Map(f, Filter(keep, s[..i])) + if keep(s[i]) then [f(s[i])] else []
  {
    FilterNext(keep, s, i);
    MapSnoc(f, Filter(keep, s[..i]), s[i]);
  }

  lemma FilterMapNext<T, U(!new)>(f: T -> U, keep: U -> bool, s: seq<T>, i: nat)
    requires i < |s|
    ensures Filter(keep, Map(f, s[..i + 1])) == Filter(keep, Map(f, s[..i])) + if keep(f(s[i])) then [f(s[i])] else []
  {
    assert s[..i + 1] == s[..i] + [s[i]];
    MapSnoc(f, s[..i], s[i]);
    FilterSnoc(keep, Map(f, s[..i]), f(s[i]));
  }

  lemma AllTaken<T>(s: seq<T>)
    ensures s[..|s|] == s
  {
  }

  lemma {:induction false} FilterNothing<T(!new)>(keep: T -> bool, s: seq<T>)
    requires forall x :: x in s ==> !keep(x)
    ensures Filter(keep, s) == []
    decreases |s|
  {
    if s != [] {
      FilterNothing(keep, s[..|s| - 1]);
      assert s[|s| - 1] in s;
    }
  }

  ghost predicate Distinct<T>(s: seq<T>) {
    forall i, j :: 0 <= i < j < |s| ==> s[i] != s[j]
  }

  lemma DistinctSnocSeq<T(!new)>(s: seq<T>, x: T)
    ensures Distinct(s + [x]) <==> Distinct(s) && x !in s
  {
    var longer := s + [x];
    if Distinct(s) && x !in s {
      forall i, j | 0 <= i < j < |longer| ensures longer[i] != longer[j] {
        if j == |s| { assert s[i] in s; } else { assert s[i] != s[j]; }
      }
    }
    if Distinct(longer) {
      forall i, j | 0 <= i < j < |s| ensures s[i] != s[j] { assert longer[i] != longer[j]; }
      forall k | 0 <= k < |s| ensures s[k] != x { assert longer[k] != longer[|s|]; }
    }
  }

  // Appending once

  function AddOnce<T(==,!new)>(s: seq<T>, x: T): (r: seq<T>)
    ensures s <= r && (forall y :: y in r <==> y in s || y == x)
  {
    if x in s then s else s + [x]
  }

  function AddAll<T(==,!new)>(s: seq<T>, more: seq<T>): (r: seq<T>)
    ensures s <= r && (forall y :: y in r <==> y in s || y in more)
    decreases |more|
  {
    if more == [] then s
    else
      assert more == [more[0]] + more[1..];
      AddAll(AddOnce(s, more[0]), more[1..])
  }

  lemma {:induction false} AddAllConcat<T(!new)>(s: seq<T>, a: seq<T>, b: seq<T>)
    ensures AddAll(s, a + b) == AddAll(AddAll(s, a), b)
    decreases |a|
  {
    if a == [] {
      assert a + b == b;
    } else {
      assert (a + b)[1..] == a[1..] + b;
      AddAllConcat(AddOnce(s, a[0]), a[1..], b);
    }
  }

  /** Adding what is already there changes nothing. */
  lemma {:induction false} AddAllKnown<T(!new)>(s: seq<T>, more: seq<T>)
    requires forall x :: x in more ==> x in s
    ensures AddAll(s, more) == s
    decreases |more|
  {
    if more != [] {
      assert more[0] in more;
      AddAllKnown(s, more[1..]);
    }
  }

  // Lexicographic order of identifiers, and sorting by it

  predicate LexLe(a: string, b: string)
    decreases |a|
  {
    a == "" || (b != "" && (a[0] < b[0] || (a[0] == b[0] && LexLe(a[1..], b[1..]))))
  }

  function InsertBy<T>(x: T, s: seq<T>, le: (T, T) -> bool): (r: seq<T>)
    ensures multiset(r) == multiset(s) + multiset{x} && |r| == |s| + 1
    decreases |s|
  {
    if s == [] then [x]
    else if le(x, s[0]) then [x] + s
    else
      assert s == [s[0]] + s[1..];
      [s[0]] + InsertBy(x, s[1..], le)
  }

  /** Sorting by insertion; the order of a standard sort over distinct keys. */
  function SortBy<T>(s: seq<T>, le: (T, T) -> bool): (r: seq<T>)
    ensures multiset(r) == multiset(s) && |r| == |s|
    decreases |s|
  {
    if s == [] then []
    else
      assert s == [s[0]] + s[1..];
      InsertBy(s[0], SortBy(s[1..], le), le)
  }

  lemma SameMembers<T(!new)>(a: seq<T>, b: seq<T>)
    requires multiset(a) == multiset(b)
    ensures forall x :: x in a <==> x in b
  {
    forall x ensures x in a <==> x in b {
      assert x in a <==> x in multiset(a);
      assert x in b <==> x in multiset(b);
    }
  }

  lemma {:induction false} LexTotal(a: string, b: string)
    ensures LexLe(a, b) || LexLe(b, a)
    ensures LexLe(a, b) && LexLe(b, a) ==> a == b
    decreases |a|
  {
    if a != "" && b != "" && a[0] == b[0] {
      LexTotal(a[1..], b[1..]);
      assert a == [a[0]] + a[1..] && b == [b[0]] + b[1..];
    }
  }

  lemma {:induction false} LexTransitive(a: string, b: string, c: string)
    requires LexLe(a, b) && LexLe(b, c)
    ensures LexLe(a, c)
    decreases |a|
  {
    if a != "" && a[0] == b[0] && b[0] == c[0] {
      LexTransitive(a[1..], b[1..], c[1..]);
    }
  }

  /** Distinctness of keys survives reordering. */
  lemma DistinctPermutation<T>(a: seq<T>, b: seq<T>)
    requires multiset(a) == multiset(b) && Distinct(a)
    ensures Distinct(b)
  {
    DistinctCounts(a);
    forall i, j | 0 <= i < j < |b| ensures b[i] != b[j] {
      assert b == b[..j] + [b[j]] + b[j + 1..];
      assert multiset(b) == multiset(b[..j]) + multiset{b[j]} + multiset(b[j + 1..]);
      assert b[i] == b[..j][i];
      assert multiset(b[..j])[b[i]] > 0;
      assert multiset(b)[b[j]] == multiset(a)[b[j]] <= 1;
      assert multiset(b)[b[j]] >= multiset(b[..j])[b[j]] + 1;
    }
  }

  lemma {:induction false} DistinctCounts<T>(a: seq<T>)
    requires Distinct(a)
    ensures forall x :: multiset(a)[x] <= 1
    decreases |a|
  {
    if a != [] {
      var last := |a| - 1;
      DistinctCounts(a[..last]);
      assert a == a[..last] + [a[last]];
      assert a[last] !in a[..last];
    }
  }

  ghost predicate TotalOrder<T(!new)>(le: (T, T) -> bool) {
    && (forall a, b :: le(a, b) || le(b, a))
    && (forall a, b, c :: le(a, b) && le(b, c) ==> le(a, c))
  }

  ghost predicate SortedBy<T(!new)>(s: seq<T>, le: (T, T) -> bool) {
    forall i, j :: 0 <= i < j < |s| ==> le(s[i], s[j])
  }

  lemma {:induction false} InsertSorts<T(!new)>(x: T, s: seq<T>, le: (T, T) -> bool)
    requires TotalOrder(le) && SortedBy(s, le)
    ensures SortedBy(InsertBy(x, s, le), le)
    decreases |s|
  {
    if s != [] {
      if le(x, s[0]) {
        forall j | 0 <= j < |s| ensures le(x, s[j]) {
          assert j > 0 ==> le(s[0], s[j]);
        }
      } else {
        InsertSorts(x, s[1..], le);
        var rest := InsertBy(x, s[1..], le);
        forall j | 0 <= j < |rest| ensures le(s[0], rest[j]) {
          assert rest[j] in multiset(rest);
          assert rest[j] == x || rest[j] in s[1..];
        }
      }
    }
  }

  /** Sorting sorts. */
  lemma {:induction false} SortSorts<T(!new)>(s: seq<T>, le: (T, T) -> bool)
    requires TotalOrder(le)
    ensures SortedBy(SortBy(s, le), le)
    decreases |s|
  {
    if s != [] {
      SortSorts(s[1..], le);
      InsertSorts(s[0], SortBy(s[1..], le), le);
    }
  }

  lemma LexOrder(le: (string, string) -> bool)
    requires forall a, b :: le(a, b) == LexLe(a, b)
    ensures TotalOrder(le)
  {
    forall a, b ensures le(a, b) || le(b, a) { LexTotal(a, b); }
    forall a, b, c | le(a, b) && le(b, c) ensures le(a, c) { LexTransitive(a, b, c); }
  }

  lemma {:induction false} FilterDistinct<T(!new)>(keep: T -> bool, s: seq<T>)
    requires Distinct(s)
    ensures Distinct(Filter(keep, s))
    decreases |s|
  {
    if s != [] {
      var last := |s| - 1;
      FilterDistinct(keep, s[..last]);
      assert s[last] !in s[..last];
      assert s[last] !in Filter(keep, s[..last]);
    }
  }

  lemma DistinctConcat<T(!new)>(a: seq<T>, b: seq<T>)
    requires Distinct(a) && Distinct(b) && forall t :: t in a ==> t !in b
    ensures Distinct(a + b)
  {
    forall i, j | 0 <= i < j < |a + b| ensures (a + b)[i] != (a + b)[j] {
      if i < |a| <= j {
        assert a[i] in a && b[j - |a|] in b;
      }
    }
  }


  // Removing the first occurrence

  function RemoveFirst<T(==)>(s: seq<T>, x: T): seq<T> {
    if s == [] then [] else if s[0] == x then s[1..] else [s[0]] + RemoveFirst(s[1..], x)
  }

  lemma {:induction false} RemoveFirstAt<T>(s: seq<T>, x: T, i: nat)
    requires i <= |s| && (forall k :: 0 <= k < i ==> s[k] != x) && (i < |s| ==> s[i] == x)
    ensures RemoveFirst(s, x) == if i < |s| then s[..i] + s[i + 1..] else s
    decreases i
  {
    if i == 0 {
      assert |s| > 0 ==> s[..0] + s[1..] == s[1..];
    } else {
      var tail := s[1..];
      forall k | 0 <= k < i - 1 ensures tail[k] != x { assert tail[k] == s[k + 1]; }
      RemoveFirstAt(tail, x, i - 1);
      assert s == [s[0]] + tail;
      if i < |s| {
        assert [s[0]] + (tail[..i - 1] + tail[i..]) == s[..i] + s[i + 1..];
      }
    }
  }

  lemma TailMembers<T(!new)>(s: seq<T>)
    requires Distinct(s) && s != []
    ensures Distinct(s[1..]) && forall k :: k in s[1..] <==> k in s && k != s[0]
  {
    assert s == [s[0]] + s[1..];
    forall k | k in s[1..] ensures k != s[0] {
      var i :| 0 <= i < |s[1..]| && s[1..][i] == k;
      assert s[i + 1] == k;
    }
  }

  lemma {:induction false} RemoveFirstMembers<T(!new)>(s: seq<T>, x: T)
    requires Distinct(s)
    ensures Distinct(RemoveFirst(s, x)) && forall k :: k in RemoveFirst(s, x) <==> k in s && k != x
    ensures |RemoveFirst(s, x)| == |s| - if x in s then 1 else 0
    decreases |s|
  {
    if s != [] {
      TailMembers(s);
      assert s == [s[0]] + s[1..];
      if s[0] != x {
        RemoveFirstMembers(s[1..], x);
        var rest := RemoveFirst(s[1..], x);
        forall i, j | 0 <= i < j < |rest| + 1 ensures ([s[0]] + rest)[i] != ([s[0]] + rest)[j] {
          assert rest[j - 1] in rest;
        }
      }
    }
  }

  // Counting

  lemma {:induction false} SubsetSize<T>(a: set<T>, b: set<T>)
    requires a <= b
    ensures |a| <= |b|
    decreases a
  {
    if a != {} {
      var k :| k in a;
      SubsetSize(a - {k}, b - {k});
    }
  }

  /** A list without repetition is as long as the set of its members. */
  lemma {:induction false} DistinctSize<T(!new)>(s: seq<T>, members: set<T>)
    requires Distinct(s) && forall x :: x in s <==> x in members
    ensures |s| == |members|
    decreases |s|
  {
    if s == [] {
      assert members == {};
    } else {
      var front, last := s[..|s| - 1], s[|s| - 1];
      assert s == front + [last];
      assert last !in front;
      assert last in s;
      DistinctSize(front, members - {last});
    }
  }

  lemma DistinctWithin<T(!new)>(s: seq<T>, all: set<T>)
    requires Distinct(s) && forall x :: x in s ==> x in all
    ensures |s| <= |all|
  {
    var members := set x | x in s;
    DistinctSize(s, members);
    SubsetSize(members, all);
  }

  /** A list without repetition, all of whose members are in another list, is no longer than that. */
  lemma PigeonHole<T(!new)>(s: seq<T>, t: seq<T>)
    requires Distinct(s) && forall x :: x in s ==> x in t
    ensures |s| <= |t|
  {
    var members := set x | x in t;
    DistinctWithin(s, members);
    MembersFew(t, members);
  }

  lemma {:induction false} MembersFew<T(!new)>(t: seq<T>, members: set<T>)
    requires forall x :: x in members ==> x in t
    ensures |members| <= |t|
    decreases |t|
  {
    if t == [] {
      assert members == {};
    } else {
      var front, last := t[..|t| - 1], t[|t| - 1];
      assert t == front + [last];
      MembersFew(front, members - {last});
      SubsetSize(members, (members - {last}) + {last});
    }
  }

  lemma AddAllSnoc<T(!new)>(s: seq<T>, more: seq<T>, x: T)
    ensures AddAll(s, more + [x]) == AddOnce(AddAll(s, more), x)
  {
    AddAllConcat(s, more, [x]);
    assert [x][1..] == [];
    assert AddAll(AddAll(s, more), [x]) == AddAll(AddOnce(AddAll(s, more), x), []);
  }
}
