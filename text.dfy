/** Python `str` operations used by the screener, on `seq<char>`.
    Case mapping is ASCII-only; whitespace and line breaks follow Python's
    `str.isspace` and `str.splitlines`. */
module Text {
  import opened Seqs
  import opened Sorting

  /** Python's `str.isspace()` for one character. */
  predicate IsSpace(c: char) {
    || c == ' ' || c == '\t' || c == '\n' || c == '\r' || c == '\U{B}' || c == '\U{C}'
    || ('\U{1C}' <= c <= '\U{1F}') || c == '\U{85}' || c == '\U{A0}' || c == '\U{1680}'
    || ('\U{2000}' <= c <= '\U{200A}') || c == '\U{2028}' || c == '\U{2029}'
    || c == '\U{202F}' || c == '\U{205F}' || c == '\U{3000}'
  }

  predicate AllSpace(s: string) {
    forall i :: 0 <= i < |s| ==> IsSpace(s[i])
  }

  /** `s.lstrip()`. */
  function TrimLeft(s: string): (r: string)
    ensures |r| <= |s|
  {
    if s != [] && IsSpace(s[0]) then TrimLeft(s[1..]) else s
  }

  /** `s.rstrip()`. */
  function TrimRight(s: string): (r: string)
    ensures |r| <= |s|
  {
    if s != [] && IsSpace(s[|s| - 1]) then TrimRight(s[..|s| - 1]) else s
  }

  predicate Stripped(s: string) {
    s == [] || (!IsSpace(s[0]) && !IsSpace(s[|s| - 1]))
  }

  /** Python's `s.strip()`: `s` without its leading and trailing whitespace. */
  function Strip(s: string): (r: string)
    ensures |r| <= |s|
  {
    TrimRight(TrimLeft(s))
  }

  /** How many leading whitespace characters `lstrip` removes. */
  function LeftCut(s: string): (i: nat)
    ensures i <= |s|
  {
    if s != [] && IsSpace(s[0]) then 1 + LeftCut(s[1..]) else 0
  }

  /** Where `rstrip` cuts the string. */
  function RightCut(s: string): (j: nat)
    ensures j <= |s|
  {
    if s != [] && IsSpace(s[|s| - 1]) then RightCut(s[..|s| - 1]) else |s|
  }

  predicate StartsWithNoSpace(s: string) {
    s == [] || !IsSpace(s[0])
  }

  lemma {:induction false} TrimLeftSlice(s: string)
    ensures TrimLeft(s) == s[LeftCut(s)..]
    ensures AllSpace(s[..LeftCut(s)])
    ensures StartsWithNoSpace(TrimLeft(s))
  {
    if s != [] && IsSpace(s[0]) {
      var t := s[1..];
      TrimLeftSlice(t);
      var i := LeftCut(t);
      assert t[i..] == s[i + 1..];
      forall k | 0 <= k < i + 1 ensures IsSpace(s[k]) {
        if k > 0 {
          assert s[k] == t[..i][k - 1];
        }
      }
    } else {
      assert s[0..] == s;
    }
  }

  lemma {:induction false} TrimRightSlice(s: string)
    ensures TrimRight(s) == s[..RightCut(s)]
    ensures AllSpace(s[RightCut(s)..])
    ensures TrimRight(s) == [] || !IsSpace(TrimRight(s)[|TrimRight(s)| - 1])
    ensures StartsWithNoSpace(s) ==> StartsWithNoSpace(TrimRight(s))
  {
    if s != [] && IsSpace(s[|s| - 1]) {
      var p := s[..|s| - 1];
      TrimRightSlice(p);
      var j := RightCut(p);
      assert p[..j] == s[..j];
      forall k | j <= k < |s| ensures IsSpace(s[k]) {
        if k < |p| {
          assert s[k] == p[j..][k - j];
        }
      }
      if StartsWithNoSpace(s) && p != [] {
        assert p[0] == s[0];
      }
    } else {
      assert s[..|s|] == s;
    }
  }

  lemma {:induction false} TrimLeftChars(s: string)
    ensures forall c :: c in TrimLeft(s) ==> c in s
  {
    if s != [] && IsSpace(s[0]) {
      TrimLeftChars(s[1..]);
    }
  }

  lemma {:induction false} TrimRightChars(s: string)
    ensures forall c :: c in TrimRight(s) ==> c in s
  {
    if s != [] && IsSpace(s[|s| - 1]) {
      TrimRightChars(s[..|s| - 1]);
      assert forall c :: c in s[..|s| - 1] ==> c in s;
    }
  }

  /** Every character of the stripped string occurs in the input. */
  lemma StripChars(s: string)
    ensures forall c :: c in Strip(s) ==> c in s
  {
    TrimLeftChars(s);
    TrimRightChars(TrimLeft(s));
  }

  /** The stripped string has no whitespace at either end, and is a slice of the input
      with only whitespace cut off either side. */
  lemma StripFacts(s: string)
    ensures Stripped(Strip(s))
    ensures exists i, j :: 0 <= i <= j <= |s| && Strip(s) == s[i..j] && AllSpace(s[..i]) && AllSpace(s[j..])
  {
    var t := TrimLeft(s);
    TrimLeftSlice(s);
    TrimRightSlice(t);
    var i, j := LeftCut(s), RightCut(t);
    var r := Strip(s);
    assert t == s[i..] && r == t[..j];
    assert r == s[i..i + j];
    assert t[j..] == s[i + j..];
    assert StartsWithNoSpace(r);
    assert 0 <= i <= i + j <= |s| && r == s[i..i + j] && AllSpace(s[..i]) && AllSpace(s[i + j..]);
  }

  lemma StrippedFixed(s: string)
    requires Stripped(s)
    ensures Strip(s) == s
  {
  }

  /** `strip` is idempotent. */
  lemma StripIdempotent(s: string)
    ensures Strip(Strip(s)) == Strip(s)
  {
    StripFacts(s);
    StrippedFixed(Strip(s));
  }

  function LowerChar(c: char): char {
    if 'A' <= c <= 'Z' then (c as int + 32) as char else c
  }

  /** Python's `s.lower()` on ASCII letters. */
  function Lower(s: string): (r: string)
    ensures |r| == |s|
  {
    if s == [] then [] else [LowerChar(s[0])] + Lower(s[1..])
  }

  /** Every string of a list, lowered. */
  function LowerAll(s: seq<string>): (r: seq<string>)
    ensures |r| == |s|
  {
    if s == [] then [] else [Lower(s[0])] + LowerAll(s[1..])
  }

  /** The members of `LowerAll(s)` are exactly the lowered members of `s`. */
  lemma {:induction false} LowerAllMembers(s: seq<string>)
    ensures forall x :: x in s ==> Lower(x) in LowerAll(s)
    ensures forall y :: y in LowerAll(s) ==> exists x :: x in s && y == Lower(x)
  {
    if s != [] {
      LowerAllMembers(s[1..]);
      forall y | y in LowerAll(s) ensures exists x :: x in s && y == Lower(x) {
        if y != Lower(s[0]) {
          var x :| x in s[1..] && y == Lower(x);
          assert x in s;
        }
      }
    }
  }

  /** Lowering works character by character. */
  lemma {:induction false} LowerAt(s: string, i: nat)
    requires i < |s|
    ensures Lower(s)[i] == LowerChar(s[i])
  {
    if i > 0 {
      LowerAt(s[1..], i - 1);
    }
  }

  predicate IsLower(s: string) {
    forall i :: 0 <= i < |s| ==> !('A' <= s[i] <= 'Z')
  }

  /** Lowering yields lower case and changes nothing already lower case. */
  lemma {:induction false} LowerFacts(s: string)
    ensures IsLower(Lower(s))
    ensures Lower(Lower(s)) == Lower(s)
    ensures IsLower(s) ==> Lower(s) == s
  {
    if s != [] {
      LowerFacts(s[1..]);
      assert Lower(s) == [LowerChar(s[0])] + Lower(s[1..]);
      assert Lower(s)[1..] == Lower(s[1..]);
    }
  }

  /** Python's `p in s` for strings. */
  predicate IsSubstring(p: string, s: string) {
    exists i | 0 <= i <= |s| - |p| :: OccursAt(s, p, i)
  }

  predicate OccursAt(s: string, p: string, i: int) {
    0 <= i && i + |p| <= |s| && s[i..i + |p|] == p
  }

  /** The phrases of a list that occur in `t`, in list order. */
  function PhrasesIn(phrases: seq<string>, t: string): (r: seq<string>)
    ensures forall x :: x in r <==> x in phrases && IsSubstring(x, t)
  {
    if phrases == [] then []
    else
      var n := |phrases| - 1;
      assert forall x :: x in phrases <==> x in phrases[..n] || x == phrases[n];
      PhrasesIn(phrases[..n], t) + (if IsSubstring(phrases[n], t) then [phrases[n]] else [])
  }

  /** `any(w in t for w in words)`. */
  predicate AnyOccurs(t: string, words: seq<string>) {
    exists w :: w in words && IsSubstring(w, t)
  }

  predicate StartsWith(s: string, p: string) {
    |p| <= |s| && s[..|p|] == p
  }

  function CountFrom(s: string, sub: string, i: nat): (n: nat)
    requires |sub| > 0
    decreases |s| - i
  {
    if i + |sub| > |s| then 0
    else if OccursAt(s, sub, i) then 1 + CountFrom(s, sub, i + |sub|)
    else CountFrom(s, sub, i + 1)
  }

  /** Python's `s.count(sub)`: non-overlapping occurrences, scanned from the left. */
  function Count(s: string, sub: string): (n: nat)
    requires |sub| > 0
  {
    CountFrom(s, sub, 0)
  }

  lemma {:induction false} CountFromPositive(s: string, sub: string, i: nat)
    requires |sub| > 0
    ensures CountFrom(s, sub, i) > 0 <==> exists j | i <= j <= |s| - |sub| :: OccursAt(s, sub, j)
    decreases |s| - i
  {
    if i + |sub| <= |s| && !OccursAt(s, sub, i) {
      CountFromPositive(s, sub, i + 1);
      if exists j | i <= j <= |s| - |sub| :: OccursAt(s, sub, j) {
        var j :| i <= j <= |s| - |sub| && OccursAt(s, sub, j);
        assert j != i;
      }
    } else if i + |sub| <= |s| {
      assert OccursAt(s, sub, i);
    }
  }

  /** A string occurs at least once exactly when it is a substring. */
  lemma CountPositive(s: string, sub: string)
    requires |sub| > 0
    ensures Count(s, sub) > 0 <==> IsSubstring(sub, s)
  {
    CountFromPositive(s, sub, 0);
  }

  /** Python's `s.split(sep)` for a one-character separator, or `re.split` on a
      one-character class: the pieces between separators, empty ones included. */
  function SplitBy(s: string, isSep: char -> bool): (r: seq<string>)
    ensures |r| >= 1
    ensures forall p, c :: p in r && c in p ==> !isSep(c)
  {
    if s == [] then [""]
    else
      var rest := SplitBy(s[1..], isSep);
      if isSep(s[0]) then [""] + rest
      else
        assert forall c :: c in [s[0]] + rest[0] ==> c == s[0] || c in rest[0];
        [[s[0]] + rest[0]] + rest[1..]
  }

  function JoinWith(pieces: seq<string>, sep: char): string
    requires |pieces| >= 1
  {
    if |pieces| == 1 then pieces[0] else pieces[0] + [sep] + JoinWith(pieces[1..], sep)
  }

  /** Splitting on a character and joining with it gives the input back. */
  lemma {:induction false} SplitJoin(s: string, sep: char)
    ensures JoinWith(SplitBy(s, c => c == sep), sep) == s
  {
    if s != [] {
      var rest := SplitBy(s[1..], c => c == sep);
      SplitJoin(s[1..], sep);
      if s[0] == sep {
        assert SplitBy(s, c => c == sep) == [""] + rest;
        assert ([""] + rest)[1..] == rest;
      } else {
        var r := [[s[0]] + rest[0]] + rest[1..];
        assert SplitBy(s, c => c == sep) == r;
        if |rest| == 1 {
          assert s == [s[0]] + s[1..];
        } else {
          assert r[1..] == rest[1..];
          assert JoinWith(rest, sep) == rest[0] + [sep] + JoinWith(rest[1..], sep);
          assert s == [s[0]] + s[1..];
        }
      }
    }
  }

  /** Python's line boundaries for `str.splitlines`. */
  predicate IsLineBreak(c: char) {
    || c == '\n' || c == '\r' || c == '\U{B}' || c == '\U{C}' || c == '\U{1C}' || c == '\U{1D}'
    || c == '\U{1E}' || c == '\U{85}' || c == '\U{2028}' || c == '\U{2029}'
  }

  function FirstBreak(s: string, i: nat): (k: nat)
    requires i <= |s|
    ensures i <= k <= |s|
    ensures k < |s| ==> IsLineBreak(s[k])
    ensures forall j :: i <= j < k ==> !IsLineBreak(s[j])
    decreases |s| - i
  {
    if i == |s| || IsLineBreak(s[i]) then i else FirstBreak(s, i + 1)
  }

  /** Python's `s.splitlines()`: no trailing empty line, `\r\n` is one break. */
  function SplitLines(s: string): (r: seq<string>)
    ensures forall l, c :: l in r && c in l ==> !IsLineBreak(c)
    decreases |s|
  {
    if s == [] then []
    else
      var k := FirstBreak(s, 0);
      if k == |s| then
        assert forall c :: c in s ==> !IsLineBreak(c);
        [s]
      else
        var next := if s[k] == '\r' && k + 1 < |s| && s[k + 1] == '\n' then k + 2 else k + 1;
        assert forall c :: c in s[..k] ==> !IsLineBreak(c);
        [s[..k]] + SplitLines(s[next..])
  }

  /** Python's `" ".join(parts)`. */
  function JoinSpace(parts: seq<string>): string {
    if parts == [] then "" else if |parts| == 1 then parts[0] else parts[0] + " " + JoinSpace(parts[1..])
  }

  /** Characters kept by the tokenizer `re.split(r"[^a-zA-Z0-9+#\.\-]", ...)`. */
  predicate IsTokenChar(c: char) {
    ('a' <= c <= 'z') || ('A' <= c <= 'Z') || ('0' <= c <= '9') || c == '+' || c == '#' || c == '.' || c == '-'
  }

  function TokenPieces(s: string): (r: seq<string>)
    ensures forall p, c :: p in r && c in p ==> IsTokenChar(c)
  {
    SplitBy(s, c => !IsTokenChar(c))
  }

  /** Python's string order `a <= b` (lexicographic by code point). */
  predicate StrLe(a: string, b: string) {
    a == [] || (b != [] && (a[0] < b[0] || (a[0] == b[0] && StrLe(a[1..], b[1..]))))
  }

  lemma {:induction false} StrLeTotal(a: string, b: string)
    ensures StrLe(a, b) || StrLe(b, a)
  {
    if a != [] && b != [] && a[0] == b[0] {
      StrLeTotal(a[1..], b[1..]);
    }
  }

  lemma {:induction false} StrLeTransitive(a: string, b: string, c: string)
    ensures StrLe(a, b) && StrLe(b, c) ==> StrLe(a, c)
  {
    if a != [] && b != [] && c != [] && a[0] == b[0] && b[0] == c[0] {
      StrLeTransitive(a[1..], b[1..], c[1..]);
    }
  }

  lemma {:induction false} StrLeAntisymmetric(a: string, b: string)
    ensures StrLe(a, b) && StrLe(b, a) ==> a == b
  {
    if a != [] && b != [] && a[0] == b[0] {
      StrLeAntisymmetric(a[1..], b[1..]);
      if a[1..] == b[1..] {
        assert a == [a[0]] + a[1..] && b == [b[0]] + b[1..];
      }
    }
  }

  /** String order is a total preorder, so sorting strings is well defined. */
  lemma StrLeIsTotalPreorder()
    ensures TotalPreorder(StrLe)
  {
    forall a, b ensures StrLe(a, b) || StrLe(b, a) { StrLeTotal(a, b); }
    forall a, b, c ensures StrLe(a, b) && StrLe(b, c) ==> StrLe(a, c) { StrLeTransitive(a, b, c); }
  }

  /** Python's `sorted(...)` of strings. */
  function SortStrings(s: seq<string>): (r: seq<string>)
    ensures multiset(r) == multiset(s)
  {
    SortBy(s, StrLe)
  }

  lemma SortStringsSorted(s: seq<string>)
    ensures SortedBy(SortStrings(s), StrLe)
  {
    StrLeIsTotalPreorder();
    SortBySorted(s, StrLe);
  }

  /** Sorting keeps exactly the elements it was given. */
  lemma SortStringsMembers(s: seq<string>)
    ensures SortedBy(SortStrings(s), StrLe)
    ensures forall x :: x in SortStrings(s) <==> x in s
  {
    SortStringsSorted(s);
    var r := SortStrings(s);
    forall x ensures x in r <==> x in s {
      assert x in r <==> multiset(r)[x] > 0;
      assert x in s <==> multiset(s)[x] > 0;
    }
  }

  /** `sorted(set(...))`: sorting a duplicate-free sequence keeps it duplicate-free
      and keeps its elements. */
  lemma SortStringsSet(s: seq<string>)
    requires Distinct(s)
    ensures SortedBy(SortStrings(s), StrLe)
    ensures Distinct(SortStrings(s))
    ensures forall x :: x in SortStrings(s) <==> x in s
  {
    DistinctPermutation(s, SortStrings(s));
    SortStringsMembers(s);
  }
}
