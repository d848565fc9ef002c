/** Python's `list.sort` / `sorted`: a stable sort by a total preorder.
    `le(x, y)` means "x may come before y"; for `reverse=True` sorts the caller
    passes the reversed key order, and stability still keeps equal keys in input
    order, as Python guarantees. */
module Sorting {
  import opened Seqs

  ghost predicate TotalPreorder<T(!new)>(le: (T, T) -> bool) {
    && (forall x, y :: le(x, y) || le(y, x))
    && (forall x, y, z :: le(x, y) && le(y, z) ==> le(x, z))
  }

  predicate SortedBy<T>(s: seq<T>, le: (T, T) -> bool) {
    forall i, j :: 0 <= i < j < |s| ==> le(s[i], s[j])
  }

  predicate Equivalent<T>(x: T, y: T, le: (T, T) -> bool) {
    le(x, y) && le(y, x)
  }

  /** The elements of `s` whose key equals that of `k`, in their order in `s`. */
  function Ties<T>(s: seq<T>, k: T, le: (T, T) -> bool): seq<T> {
    if s == [] then []
    else (if Equivalent(s[0], k, le) then [s[0]] else []) + Ties(s[1..], k, le)
  }

  lemma Transitive<T(!new)>(x: T, y: T, z: T, le: (T, T) -> bool)
    requires TotalPreorder(le)
    ensures le(x, y) && le(y, z) ==> le(x, z)
  {
  }

  /** Inserts `x` before the first element it may precede. */
  function InsertBy<T>(x: T, s: seq<T>, le: (T, T) -> bool): (r: seq<T>)
    ensures multiset(r) == multiset(s) + multiset{x}
  {
    if s == [] || le(x, s[0]) then [x] + s
    else
      assert s == [s[0]] + s[1..];
      [s[0]] + InsertBy(x, s[1..], le)
  }

  function SortBy<T>(s: seq<T>, le: (T, T) -> bool): (r: seq<T>)
    ensures multiset(r) == multiset(s)
    ensures |r| == |s|
  {
    if s == [] then []
    else
      assert s == [s[0]] + s[1..];
      InsertBy(s[0], SortBy(s[1..], le), le)
  }

  lemma {:induction false} InsertBySorted<T(!new)>(x: T, s: seq<T>, le: (T, T) -> bool)
    requires TotalPreorder(le)
    requires SortedBy(s, le)
    ensures SortedBy(InsertBy(x, s, le), le)
    ensures forall y :: y in InsertBy(x, s, le) ==> y == x || y in s
  {
    if s != [] && !le(x, s[0]) {
      InsertBySorted(x, s[1..], le);
      var r := InsertBy(x, s[1..], le);
      assert le(s[0], x);
      forall y | y in r ensures le(s[0], y) {
        if y != x {
          var j :| 0 <= j < |s[1..]| && s[1..][j] == y;
          assert s[1 + j] == y;
        }
      }
    }
  }

  lemma {:induction false} SortBySorted<T(!new)>(s: seq<T>, le: (T, T) -> bool)
    requires TotalPreorder(le)
    ensures SortedBy(SortBy(s, le), le)
  {
    if s != [] {
      SortBySorted(s[1..], le);
      InsertBySorted(s[0], SortBy(s[1..], le), le);
    }
  }

  lemma {:induction false} TiesConcat<T>(a: seq<T>, b: seq<T>, k: T, le: (T, T) -> bool)
    ensures Ties(a + b, k, le) == Ties(a, k, le) + Ties(b, k, le)
  {
    if a == [] {
      assert a + b == b;
    } else {
      assert (a + b)[0] == a[0] && (a + b)[1..] == a[1..] + b;
      TiesConcat(a[1..], b, k, le);
    }
  }

  lemma {:induction false} InsertByTies<T(!new)>(x: T, s: seq<T>, k: T, le: (T, T) -> bool)
    requires TotalPreorder(le)
    ensures Ties(InsertBy(x, s, le), k, le)
         == (if Equivalent(x, k, le) then [x] else []) + Ties(s, k, le)
  {
    var mine := if Equivalent(x, k, le) then [x] else [];
    if s == [] || le(x, s[0]) {
      assert ([x] + s)[0] == x && ([x] + s)[1..] == s;
    } else {
      InsertByTies(x, s[1..], k, le);
      var r := InsertBy(x, s[1..], le);
      assert InsertBy(x, s, le) == [s[0]] + r;
      assert ([s[0]] + r)[0] == s[0] && ([s[0]] + r)[1..] == r;
      var head := if Equivalent(s[0], k, le) then [s[0]] else [];
      assert Ties([s[0]] + r, k, le) == head + Ties(r, k, le);
      assert Ties(s, k, le) == head + Ties(s[1..], k, le);
      Transitive(x, k, s[0], le);
      assert head == [] || mine == [];
    }
  }

  /** Stability: elements with equal keys keep the order they had in the input. */
  lemma {:induction false} SortByStable<T(!new)>(s: seq<T>, k: T, le: (T, T) -> bool)
    requires TotalPreorder(le)
    ensures Ties(SortBy(s, le), k, le) == Ties(s, k, le)
  {
    if s != [] {
      SortByStable(s[1..], k, le);
      InsertByTies(s[0], SortBy(s[1..], le), k, le);
    }
  }

  /** Everything a caller of Python's stable sort may rely on, in one place. */
  lemma SortByFacts<T(!new)>(s: seq<T>, le: (T, T) -> bool)
    requires TotalPreorder(le)
    ensures SortedBy(SortBy(s, le), le)
    ensures multiset(SortBy(s, le)) == multiset(s)
    ensures forall k :: Ties(SortBy(s, le), k, le) == Ties(s, k, le)
  {
    SortBySorted(s, le);
    forall k ensures Ties(SortBy(s, le), k, le) == Ties(s, k, le) {
      SortByStable(s, k, le);
    }
  }

  /** Keeping only some elements of a sorted sequence leaves it sorted. */
  lemma {:induction false} FilterSorted<T(!new)>(s: seq<T>, p: T -> bool, le: (T, T) -> bool)
    requires SortedBy(s, le)
    ensures SortedBy(Filter(s, p), le)
  {
    if s != [] {
      FilterSorted(s[1..], p, le);
      var rest := Filter(s[1..], p);
      forall y | y in rest ensures le(s[0], y) {
        var j :| 0 <= j < |s[1..]| && s[1..][j] == y;
        assert s[1 + j] == y;
      }
    }
  }
}
