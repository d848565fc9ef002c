/** Small sequence vocabulary shared by the whole model.
    A Python `set` that is only ever counted, tested for membership or sorted is
    represented by a duplicate-free sequence. */
module Seqs {

  datatype Option<+T> = None | Some(value: T)

  datatype Result<+R, +E> = Ok(value: R) | Err(error: E)

  predicate Distinct<T(==)>(s: seq<T>) {
    forall i, j :: 0 <= i < j < |s| ==> s[i] != s[j]
  }

  /** The elements of `s` satisfying `p`, in their original order (a list comprehension). */
  function Filter<T(!new)>(s: seq<T>, p: T -> bool): (r: seq<T>)
    ensures |r| <= |s|
    ensures forall x :: x in r <==> x in s && p(x)
    ensures forall x :: x in r ==> p(x)
  {
    if s == [] then [] else (if p(s[0]) then [s[0]] else []) + Filter(s[1..], p)
  }

  lemma {:induction false} FilterConcat<T(!new)>(a: seq<T>, b: seq<T>, p: T -> bool)
    ensures Filter(a + b, p) == Filter(a, p) + Filter(b, p)
  {
    if a != [] {
      assert (a + b)[0] == a[0] && (a + b)[1..] == a[1..] + b;
      FilterConcat(a[1..], b, p);
      calc {
        Filter(a + b, p);
        (if p(a[0]) then [a[0]] else []) + Filter(a[1..] + b, p);
        (if p(a[0]) then [a[0]] else []) + (Filter(a[1..], p) + Filter(b, p));
        Filter(a, p) + Filter(b, p);
      }
    } else {
      assert a + b == b;
    }
  }

  lemma {:induction false} FilterMultiset<T(!new)>(s: seq<T>, p: T -> bool, x: T)
    ensures multiset(Filter(s, p))[x] == if p(x) then multiset(s)[x] else 0
  {
    if s != [] {
      assert s == [s[0]] + s[1..];
      FilterMultiset(s[1..], p, x);
    }
  }

  lemma {:induction false} FilterDistinct<T(!new)>(s: seq<T>, p: T -> bool)
    requires Distinct(s)
    ensures Distinct(Filter(s, p))
  {
    if s != [] {
      FilterDistinct(s[1..], p);
      var rest := Filter(s[1..], p);
      assert s[0] !in s[1..];
      assert s[0] !in rest;
    }
  }

  /** A sequence is duplicate-free exactly when no element occurs twice in its multiset. */
  lemma {:induction false} DistinctByMultiset<T>(s: seq<T>)
    ensures Distinct(s) <==> forall x :: multiset(s)[x] <= 1
  {
    if s != [] {
      var h, t := s[0], s[1..];
      assert s == [h] + t;
      DistinctByMultiset(t);
      if Distinct(s) {
        assert h !in t;
        assert Distinct(t) by {
          forall i, j | 0 <= i < j < |t| ensures t[i] != t[j] {
            assert t[i] == s[i + 1] && t[j] == s[j + 1];
          }
        }
      }
      if forall x :: multiset(s)[x] <= 1 {
        assert forall x :: multiset(t)[x] <= 1 by {
          forall x ensures multiset(t)[x] <= 1 {
            assert multiset(s)[x] == multiset([h])[x] + multiset(t)[x];
          }
        }
        assert multiset(s)[h] == 1 + multiset(t)[h];
        assert h !in t;
        forall i, j | 0 <= i < j < |s| ensures s[i] != s[j] {
          if i == 0 {
            assert s[j] == t[j - 1];
          } else {
            assert s[i] == t[i - 1] && s[j] == t[j - 1];
          }
        }
      }
    }
  }

  /** Rearranging a duplicate-free sequence leaves it duplicate-free. */
  lemma DistinctPermutation<T>(a: seq<T>, b: seq<T>)
    requires Distinct(a) && multiset(a) == multiset(b)
    ensures Distinct(b)
  {
    DistinctByMultiset(a);
    DistinctByMultiset(b);
  }

  /** First occurrences of the elements of `s`, in order: Python's `set(s)` as a sequence. */
  function Dedup<T(==,!new)>(s: seq<T>): (r: seq<T>)
    ensures Distinct(r)
    ensures forall x :: x in r <==> x in s
    ensures |r| <= |s|
  {
    if s == [] then []
    else
      var r := Dedup(s[..|s| - 1]);
      var x := s[|s| - 1];
      assert s == s[..|s| - 1] + [x];
      if x in r then r else r + [x]
  }

  /** `[f(x) for x in s]`. */
  function Map<T, U>(s: seq<T>, f: T -> U): (r: seq<U>)
    ensures |r| == |s|
    ensures forall i :: 0 <= i < |s| ==> r[i] == f(s[i])
  {
    seq(|s|, i requires 0 <= i < |s| => f(s[i]))
  }

  lemma MapSnoc<T, U>(s: seq<T>, x: T, f: T -> U)
    ensures Map(s + [x], f) == Map(s, f) + [f(x)]
  {
  }

  /** Appending one element to a sequence appends its first occurrence, if new, to the deduplication. */
  lemma DedupSnoc<T(!new)>(s: seq<T>, x: T)
    ensures Dedup(s + [x]) == if x in Dedup(s) then Dedup(s) else Dedup(s) + [x]
  {
    assert (s + [x])[..|s + [x]| - 1] == s;
  }

  lemma FilterSnoc<T(!new)>(s: seq<T>, x: T, p: T -> bool)
    ensures Filter(s + [x], p) == Filter(s, p) + (if p(x) then [x] else [])
  {
    FilterConcat(s, [x], p);
    assert Filter([x], p) == (if p(x) then [x] else []) + Filter([], p);
  }

  /** Membership in a mapped sequence: exactly the images of the members. */
  lemma MapMembers<T, U>(s: seq<T>, f: T -> U)
    ensures forall x :: x in s ==> f(x) in Map(s, f)
    ensures forall y :: y in Map(s, f) ==> exists x :: x in s && y == f(x)
  {
    var r := Map(s, f);
    forall x | x in s ensures f(x) in r {
      var i :| 0 <= i < |s| && s[i] == x;
      assert r[i] == f(x);
    }
    forall y | y in r ensures exists x :: x in s && y == f(x) {
      var i :| 0 <= i < |r| && r[i] == y;
      assert s[i] in s;
    }
  }

  /** One more element of the input extends the deduplicated filter by that element
      when it passes the filter and is new. */
  lemma DedupFilterSnoc<T(!new)>(s: seq<T>, i: nat, p: T -> bool)
    requires i < |s|
    ensures Dedup(Filter(s[..i + 1], p)) ==
      if p(s[i]) && s[i] !in Dedup(Filter(s[..i], p)) then Dedup(Filter(s[..i], p)) + [s[i]]
      else Dedup(Filter(s[..i], p))
  {
    var pre, x := s[..i], s[i];
    assert s[..i + 1] == pre + [x];
    FilterSnoc(pre, x, p);
    if p(x) {
      assert Filter(s[..i + 1], p) == Filter(pre, p) + [x];
      DedupSnoc(Filter(pre, p), x);
    } else {
      assert Filter(s[..i + 1], p) == Filter(pre, p);
    }
  }

  /** The elements of `s` that do not occur in `excl`, in order (`[x for x in s if x not in excl]`). */
  function Without<T(==,!new)>(s: seq<T>, excl: seq<T>): (r: seq<T>)
    ensures |r| <= |s|
    ensures forall x :: x in r <==> x in s && x !in excl
  {
    if s == [] then [] else (if s[0] in excl then [] else [s[0]]) + Without(s[1..], excl)
  }

  lemma {:induction false} WithoutSnoc<T(!new)>(s: seq<T>, x: T, excl: seq<T>)
    ensures Without(s + [x], excl) == Without(s, excl) + (if x in excl then [] else [x])
  {
    if s == [] {
      assert [x][1..] == [];
    } else {
      assert (s + [x])[0] == s[0] && (s + [x])[1..] == s[1..] + [x];
      WithoutSnoc(s[1..], x, excl);
    }
  }

  lemma {:induction false} WithoutDistinct<T(!new)>(s: seq<T>, excl: seq<T>)
    requires Distinct(s)
    ensures Distinct(Without(s, excl))
  {
    if s != [] {
      WithoutDistinct(s[1..], excl);
      assert s[0] !in s[1..];
    }
  }

  /** Python's `s[:n]`. */
  function Take<T>(s: seq<T>, n: nat): (r: seq<T>)
    ensures |r| == if |s| <= n then |s| else n
    ensures r <= s
  {
    if |s| <= n then s else s[..n]
  }

  function Max(a: real, b: real): real { if a < b then b else a }

  function Min(a: real, b: real): real { if b < a then b else a }

  /** Python's `max(0.0, min(1.0, x))`. */
  function Clamp01(x: real): (r: real)
    ensures 0.0 <= r <= 1.0
    ensures 0.0 <= x <= 1.0 ==> r == x
    ensures x < 0.0 ==> r == 0.0
    ensures 1.0 < x ==> r == 1.0
  {
    Max(0.0, Min(1.0, x))
  }
}
