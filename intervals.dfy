/** The employment-interval algebra of the profile analysis: turning parsed
    date pairs into sorted intervals, month spans, the short-interval filter,
    merging into disjoint runs, and gap and overlap detection on the sorted,
    unmerged intervals. */
module Intervals {
  import opened Seqs
  import opened Sorting
  import opened Text
  import opened Dates

  /** A raw `(start, end)` pair of date strings as extracted from a resume. */
  type RawRange = (string, string)

  /** The date parser (`dateutil` fuzzy parsing with default 1 January 2000):
      `None` when the token cannot be read as a date. */
  type Parser = string -> Option<DateTime>

  datatype Interval = Interval(start: DateTime, end: DateTime)

  predicate Ordered(x: Interval) {
    NotAfter(x.start, x.end)
  }

  predicate AllOrdered(s: seq<Interval>) {
    forall k :: 0 <= k < |s| ==> Ordered(s[k])
  }

  /** The sort key of `norm.sort(key=lambda x: x[0])`. */
  predicate StartLe(x: Interval, y: Interval) {
    NotAfter(x.start, y.start)
  }

  lemma StartLeIsTotalPreorder()
    ensures TotalPreorder(StartLe)
  {
    forall x: Interval, y: Interval ensures StartLe(x, y) || StartLe(y, x) {
      OrderFacts(x.start, y.start, y.start);
    }
    forall x: Interval, y: Interval, z: Interval ensures StartLe(x, y) && StartLe(y, z) ==> StartLe(x, z) {
      OrderFacts(x.start, y.start, z.start);
    }
  }

  /** An end token meaning "still employed". */
  predicate IsPresentToken(t: string) {
    Lower(Strip(t)) == "present" || Lower(Strip(t)) == "current"
  }

  /** One pair: a start that does not parse drops the pair; an end that is
      `present`/`current`, or that does not parse, becomes `now`. */
  function ParsePair(raw: RawRange, parse: Parser, now: DateTime): (r: Option<Interval>)
    ensures r.None? <==> parse(raw.0).None?
    ensures r.Some? ==> r.value.start == parse(raw.0).value
    ensures r.Some? && (IsPresentToken(raw.1) || parse(raw.1).None?) ==> r.value.end == now
    ensures r.Some? && !IsPresentToken(raw.1) && parse(raw.1).Some? ==> r.value.end == parse(raw.1).value
  {
    match parse(raw.0)
    case None => None
    case Some(s) =>
      var e := if IsPresentToken(raw.1) then None else parse(raw.1);
      Some(Interval(s, if e.Some? then e.value else now))
  }

  /** The pairs that parse, in input order (the accumulation loop). */
  function Parsed(ranges: seq<RawRange>, parse: Parser, now: DateTime): seq<Interval> {
    if ranges == [] then []
    else
      var p := ParsePair(ranges[|ranges| - 1], parse, now);
      Parsed(ranges[..|ranges| - 1], parse, now) + (if p.Some? then [p.value] else [])
  }

  /** The parsed intervals are exactly the results of the pairs that parse. */
  lemma {:induction false} ParsedMembers(ranges: seq<RawRange>, parse: Parser, now: DateTime)
    ensures forall x :: x in Parsed(ranges, parse, now) <==>
      exists k | 0 <= k < |ranges| :: ParsePair(ranges[k], parse, now) == Some(x)
  {
    if ranges != [] {
      var front := ranges[..|ranges| - 1];
      ParsedMembers(front, parse, now);
      assert forall k | 0 <= k < |front| :: ranges[k] == front[k];
    }
  }

  /** The result of `_normalize_ranges`: parsed, inverted pairs dropped, stably sorted by start. */
  function NormalizedRanges(ranges: seq<RawRange>, parse: Parser, now: DateTime): seq<Interval> {
    SortBy(Filter(Parsed(ranges, parse, now), Ordered), StartLe)
  }

  method NormalizeRanges(ranges: seq<RawRange>, parse: Parser, now: DateTime) returns (norm: seq<Interval>)
    ensures norm == NormalizedRanges(ranges, parse, now)
  {
    norm := [];
    var i := 0;
    while i < |ranges|
      invariant 0 <= i <= |ranges|
      invariant norm == Parsed(ranges[..i], parse, now)
    {
      var p := ParsePair(ranges[i], parse, now);
      if p.Some? {
        norm := norm + [p.value];
      }
      assert ranges[..i + 1][..i] == ranges[..i];
      i := i + 1;
    }
    assert ranges[..i] == ranges;
    norm := Filter(norm, Ordered);
    norm := SortBy(norm, StartLe);
  }

  /** Normalised ranges are sorted by start, each has start <= end, and they are
      exactly the parsed pairs that are not inverted, each as often as parsed. */
  lemma NormalizedRangesFacts(ranges: seq<RawRange>, parse: Parser, now: DateTime)
    ensures SortedBy(NormalizedRanges(ranges, parse, now), StartLe)
    ensures AllOrdered(NormalizedRanges(ranges, parse, now))
    ensures multiset(NormalizedRanges(ranges, parse, now)) == multiset(Filter(Parsed(ranges, parse, now), Ordered))
    ensures forall x :: x in NormalizedRanges(ranges, parse, now) <==>
      Ordered(x) && exists k | 0 <= k < |ranges| :: ParsePair(ranges[k], parse, now) == Some(x)
  {
    var kept := Filter(Parsed(ranges, parse, now), Ordered);
    ParsedMembers(ranges, parse, now);
    StartLeIsTotalPreorder();
    SortBySorted(kept, StartLe);
    var r := NormalizedRanges(ranges, parse, now);
    forall x ensures x in r <==> x in kept {
      assert x in r <==> multiset(r)[x] > 0;
      assert x in kept <==> multiset(kept)[x] > 0;
    }
    forall k | 0 <= k < |r| ensures Ordered(r[k]) {
      assert r[k] in r;
    }
  }

  /** `_months_between` before the clamp, on the ordered pair. */
  function RawMonths(a: DateTime, b: DateTime): real {
    ((b.year - a.year) * 12 + (b.month - a.month)) as real + (b.day - a.day) as real / 30.0
  }

  /** `_months_between`: swaps so the earlier time comes first, then clamps at zero. */
  function MonthsBetween(a: DateTime, b: DateTime): (r: real)
    ensures r >= 0.0
  {
    var (x, y) := if Before(b, a) then (b, a) else (a, b);
    Max(0.0, RawMonths(x, y))
  }

  /** The month span does not depend on the order of its arguments. */
  lemma MonthsBetweenSymmetric(a: DateTime, b: DateTime)
    ensures MonthsBetween(a, b) == MonthsBetween(b, a)
  {
    OrderFacts(a, b, b);
  }

  /** For an ordered pair the clamp never applies: the raw formula is already non-negative. */
  lemma MonthsBetweenUnclamped(a: DateTime, b: DateTime)
    requires NotAfter(a, b)
    ensures RawMonths(a, b) >= 0.0
    ensures MonthsBetween(a, b) == RawMonths(a, b)
  {
    OrderFacts(a, b, b);
    if a.year < b.year {
      assert (b.year - a.year) * 12 + (b.month - a.month) >= 1;
    }
  }

  predicate LongEnough(x: Interval, minMonths: real) {
    MonthsBetween(x.start, x.end) >= minMonths
  }

  /** `_filter_short_intervals`: the intervals spanning at least `minMonths`, in order. */
  function FilterShort(norm: seq<Interval>, minMonths: real): seq<Interval> {
    if norm == [] then [] else Filter(norm, x => LongEnough(x, minMonths))
  }

  /** The filter keeps every long interval as often as it occurs, drops every
      short one, keeps the start order, and maps empty input to empty output. */
  lemma FilterShortFacts(norm: seq<Interval>, minMonths: real)
    ensures norm == [] ==> FilterShort(norm, minMonths) == []
    ensures forall x :: x in FilterShort(norm, minMonths) <==> x in norm && LongEnough(x, minMonths)
    ensures forall x :: (multiset(FilterShort(norm, minMonths))[x]
      == if LongEnough(x, minMonths) then multiset(norm)[x] else 0)
    ensures SortedBy(norm, StartLe) ==> SortedBy(FilterShort(norm, minMonths), StartLe)
    ensures AllOrdered(norm) ==> AllOrdered(FilterShort(norm, minMonths))
  {
    var p := x => LongEnough(x, minMonths);
    forall x ensures multiset(FilterShort(norm, minMonths))[x] == if LongEnough(x, minMonths) then multiset(norm)[x] else 0 {
      FilterMultiset(norm, p, x);
    }
    if SortedBy(norm, StartLe) {
      FilterSorted(norm, p, StartLe);
    }
    var r := FilterShort(norm, minMonths);
    if AllOrdered(norm) {
      forall k | 0 <= k < |r| ensures Ordered(r[k]) {
        assert r[k] in norm;
      }
    }
  }

  // ---------- merging ----------

  /** Merging continues from the current run `cur` over the remaining intervals. */
  function MergeFrom(cur: Interval, rest: seq<Interval>): seq<Interval>
    decreases |rest|
  {
    if rest == [] then [cur]
    else if NotAfter(rest[0].start, cur.end) then
      MergeFrom(Interval(cur.start, if Before(cur.end, rest[0].end) then rest[0].end else cur.end), rest[1..])
    else [cur] + MergeFrom(rest[0], rest[1..])
  }

  /** `_merge_intervals` as a function of its input. */
  function Merge(norm: seq<Interval>): seq<Interval> {
    if norm == [] then [] else MergeFrom(norm[0], norm[1..])
  }

  method MergeIntervals(norm: seq<Interval>) returns (merged: seq<Interval>)
    ensures merged == Merge(norm)
  {
    if |norm| == 0 {
      return [];
    }
    merged := [];
    var curS, curE := norm[0].start, norm[0].end;
    var i := 1;
    while i < |norm|
      invariant 1 <= i <= |norm|
      invariant merged + MergeFrom(Interval(curS, curE), norm[i..]) == Merge(norm)
    {
      var s, e := norm[i].start, norm[i].end;
      assert norm[i..][0] == norm[i] && norm[i..][1..] == norm[i + 1..];
      if NotAfter(s, curE) {
        if Before(curE, e) {
          curE := e;
        }
      } else {
        assert MergeFrom(Interval(curS, curE), norm[i..])
          == [Interval(curS, curE)] + MergeFrom(Interval(s, e), norm[i + 1..]);
        merged := merged + [Interval(curS, curE)];
        curS, curE := s, e;
      }
      i := i + 1;
    }
    merged := merged + [Interval(curS, curE)];
  }

  /** `x` lies inside the run `run`. */
  predicate Within(x: Interval, run: Interval) {
    NotAfter(run.start, x.start) && NotAfter(x.end, run.end)
  }

  predicate Covered(x: Interval, runs: seq<Interval>) {
    exists j | 0 <= j < |runs| :: Within(x, runs[j])
  }

  /** Each run ends strictly before the next run starts. */
  predicate Separated(runs: seq<Interval>) {
    forall j :: 0 <= j < |runs| - 1 ==> Before(runs[j].end, runs[j + 1].start)
  }

  lemma {:induction false} MergeFromFacts(cur: Interval, rest: seq<Interval>)
    requires Ordered(cur) && AllOrdered(rest) && SortedBy(rest, StartLe)
    requires forall k :: 0 <= k < |rest| ==> NotAfter(cur.start, rest[k].start)
    ensures 1 <= |MergeFrom(cur, rest)| <= |rest| + 1
    ensures MergeFrom(cur, rest)[0].start == cur.start
    ensures NotAfter(cur.end, MergeFrom(cur, rest)[0].end)
    ensures AllOrdered(MergeFrom(cur, rest))
    ensures Separated(MergeFrom(cur, rest))
    ensures forall k :: 0 <= k < |rest| ==> Covered(rest[k], MergeFrom(cur, rest))
    decreases |rest|
  {
    if rest != [] {
      var x, tail := rest[0], rest[1..];
      assert forall k :: 0 <= k < |tail| ==> tail[k] == rest[k + 1];
      if NotAfter(x.start, cur.end) {
        var next := Interval(cur.start, if Before(cur.end, x.end) then x.end else cur.end);
        OrderFacts(cur.start, cur.end, next.end);
        MergeFromFacts(next, tail);
        var r := MergeFrom(next, tail);
        assert MergeFrom(cur, rest) == r;
        OrderFacts(cur.end, next.end, r[0].end);
        OrderFacts(x.end, next.end, r[0].end);
        assert Within(x, r[0]);
        forall k | 0 <= k < |rest| ensures Covered(rest[k], r) {
          if k > 0 {
            assert Covered(tail[k - 1], r);
          }
        }
      } else {
        forall k | 0 <= k < |tail| ensures NotAfter(x.start, tail[k].start) {
          assert StartLe(rest[0], rest[k + 1]);
        }
        assert Ordered(x);
        MergeFromFacts(x, tail);
        var rr := MergeFrom(x, tail);
        var r := [cur] + rr;
        assert MergeFrom(cur, rest) == r;
        OrderFacts(cur.end, x.start, x.start);
        assert Before(cur.end, rr[0].start);
        forall j | 0 <= j < |r| - 1 ensures Before(r[j].end, r[j + 1].start) {
          if j > 0 {
            assert r[j] == rr[j - 1] && r[j + 1] == rr[j];
          }
        }
        forall k | 0 <= k < |r| ensures Ordered(r[k]) {
          if k > 0 {
            assert r[k] == rr[k - 1];
          }
        }
        assert Within(x, rr[0]);
        forall k | 0 <= k < |rest| ensures Covered(rest[k], r) {
          var j :| 0 <= j < |rr| && Within(rest[k], rr[j]);
          assert r[j + 1] == rr[j];
        }
      }
    }
  }

  /** On sorted, ordered input the runs are disjoint and in order, the first
      run starts at the first start, every input interval lies inside a run,
      there are never more runs than intervals, and empty input gives none. */
  lemma MergeFacts(norm: seq<Interval>)
    requires SortedBy(norm, StartLe) && AllOrdered(norm)
    ensures norm == [] <==> Merge(norm) == []
    ensures |Merge(norm)| <= |norm|
    ensures norm != [] ==> Merge(norm)[0].start == norm[0].start
    ensures AllOrdered(Merge(norm))
    ensures Separated(Merge(norm))
    ensures forall k :: 0 <= k < |norm| ==> Covered(norm[k], Merge(norm))
  {
    if norm != [] {
      var tail := norm[1..];
      assert forall k :: 0 <= k < |tail| ==> tail[k] == norm[k + 1];
      forall k | 0 <= k < |tail| ensures NotAfter(norm[0].start, tail[k].start) {
        assert StartLe(norm[0], norm[k + 1]);
      }
      assert Ordered(norm[0]);
      MergeFromFacts(norm[0], tail);
      var r := Merge(norm);
      OrderFacts(norm[0].start, norm[0].start, norm[0].start);
      assert Within(norm[0], r[0]);
      forall k | 0 <= k < |norm| ensures Covered(norm[k], r) {
        if k > 0 {
          assert Covered(tail[k - 1], r);
        }
      }
    }
  }

  function SumMonths(runs: seq<Interval>): (total: real)
    ensures total >= 0.0
  {
    if runs == [] then 0.0 else MonthsBetween(runs[0].start, runs[0].end) + SumMonths(runs[1..])
  }

  /** `_calc_total_experience_months`: the month spans of the merged runs, summed. */
  function TotalExperienceMonths(norm: seq<Interval>): (total: real)
    ensures total >= 0.0
    ensures norm == [] ==> total == 0.0
  {
    SumMonths(Merge(norm))
  }

  /** The month count `12*year + month + day/30` whose differences `_months_between` takes. */
  function MonthCount(t: DateTime): real {
    (t.year * 12 + t.month) as real + t.day as real / 30.0
  }

  /** For an ordered pair the month span is the difference of the month counts, so spans add up. */
  lemma MonthsBetweenCounts(a: DateTime, b: DateTime)
    requires NotAfter(a, b)
    ensures MonthCount(a) <= MonthCount(b)
    ensures MonthsBetween(a, b) == MonthCount(b) - MonthCount(a)
  {
    MonthsBetweenUnclamped(a, b);
    assert RawMonths(a, b) == MonthCount(b) - MonthCount(a);
  }

  /** Every run's span is part of the sum. */
  lemma {:induction false} SumMonthsAtLeast(runs: seq<Interval>, j: nat)
    requires j < |runs|
    ensures MonthsBetween(runs[j].start, runs[j].end) <= SumMonths(runs)
    decreases j
  {
    if j > 0 {
      SumMonthsAtLeast(runs[1..], j - 1);
      assert runs[1..][j - 1] == runs[j];
    }
  }

  /** Merging never adds months: a merged run spans at most the spans of what it absorbed. */
  lemma {:induction false} MergeFromSumBound(cur: Interval, rest: seq<Interval>)
    requires Ordered(cur) && AllOrdered(rest)
    ensures SumMonths(MergeFrom(cur, rest)) <= MonthsBetween(cur.start, cur.end) + SumMonths(rest)
    decreases |rest|
  {
    if rest != [] {
      var x, tail := rest[0], rest[1..];
      assert Ordered(x);
      assert AllOrdered(tail) by {
        forall k | 0 <= k < |tail| ensures Ordered(tail[k]) {
          assert tail[k] == rest[k + 1];
        }
      }
      MonthsBetweenCounts(cur.start, cur.end);
      MonthsBetweenCounts(x.start, x.end);
      if NotAfter(x.start, cur.end) {
        var next := Interval(cur.start, if Before(cur.end, x.end) then x.end else cur.end);
        OrderFacts(cur.start, cur.end, x.end);
        OrderFacts(x.start, cur.end, x.end);
        assert Ordered(next);
        MonthsBetweenCounts(x.start, cur.end);
        MonthsBetweenCounts(next.start, next.end);
        MergeFromSumBound(next, tail);
        assert MergeFrom(cur, rest) == MergeFrom(next, tail);
      } else {
        var rr := MergeFrom(x, tail);
        MergeFromSumBound(x, tail);
        assert MergeFrom(cur, rest) == [cur] + rr;
        assert ([cur] + rr)[1..] == rr;
      }
    }
  }

  /** The total tenure is at least the span of any single interval and at most
      the sum of all spans: overlapping months are counted once, never more. */
  lemma TotalExperienceBounds(norm: seq<Interval>)
    requires SortedBy(norm, StartLe) && AllOrdered(norm)
    ensures forall x :: x in norm ==> MonthsBetween(x.start, x.end) <= TotalExperienceMonths(norm)
    ensures TotalExperienceMonths(norm) <= SumMonths(norm)
  {
    MergeFacts(norm);
    var runs := Merge(norm);
    forall x | x in norm ensures MonthsBetween(x.start, x.end) <= TotalExperienceMonths(norm) {
      var k :| 0 <= k < |norm| && norm[k] == x;
      assert Covered(norm[k], runs);
      var j :| 0 <= j < |runs| && Within(x, runs[j]);
      assert Ordered(x) && Ordered(runs[j]);
      MonthsBetweenCounts(x.start, x.end);
      MonthsBetweenCounts(runs[j].start, runs[j].end);
      MonthsBetweenCounts(runs[j].start, x.start);
      MonthsBetweenCounts(x.end, runs[j].end);
      SumMonthsAtLeast(runs, j);
    }
    if norm != [] {
      assert AllOrdered(norm[1..]) by {
        forall k | 0 <= k < |norm| - 1 ensures Ordered(norm[1..][k]) {
          assert norm[1..][k] == norm[k + 1];
        }
      }
      assert Ordered(norm[0]);
      MergeFromSumBound(norm[0], norm[1..]);
      assert norm == [norm[0]] + norm[1..];
    }
  }

  // ---------- gaps ----------

  /** A gap record: previous end, next start and the whole days between them. */
  datatype Gap = Gap(start: DateTime, end: DateTime, days: int)

  const GapDays: int := 92

  function GapBetween(prev: Interval, next: Interval): Gap {
    Gap(prev.end, next.start, DaysBetween(prev.end, next.start))
  }

  /** The gaps found among the first `n` intervals. */
  function GapsUpTo(norm: seq<Interval>, n: nat): seq<Gap>
    requires n <= |norm|
  {
    if n < 2 then []
    else
      var g := GapBetween(norm[n - 2], norm[n - 1]);
      GapsUpTo(norm, n - 1) + (if g.days > GapDays then [g] else [])
  }

  function Gaps(norm: seq<Interval>): seq<Gap> {
    GapsUpTo(norm, |norm|)
  }

  method FindGaps(norm: seq<Interval>) returns (gaps: seq<Gap>)
    ensures gaps == Gaps(norm)
  {
    gaps := [];
    if |norm| < 2 {
      return;
    }
    var i := 1;
    while i < |norm|
      invariant 1 <= i <= |norm|
      invariant gaps == GapsUpTo(norm, i)
    {
      var prevEnd := norm[i - 1].end;
      var currStart := norm[i].start;
      var delta := DaysBetween(prevEnd, currStart);
      if delta > GapDays {
        gaps := gaps + [Gap(prevEnd, currStart, delta)];
      }
      i := i + 1;
    }
  }

  lemma {:induction false} GapsUpToFacts(norm: seq<Interval>, n: nat)
    requires n <= |norm|
    ensures n < 2 ==> GapsUpTo(norm, n) == []
    ensures n >= 1 ==> |GapsUpTo(norm, n)| <= n - 1
    ensures forall g :: g in GapsUpTo(norm, n) <==>
      g.days > GapDays && exists i | 1 <= i < n :: g == GapBetween(norm[i - 1], norm[i])
  {
    if n >= 2 {
      GapsUpToFacts(norm, n - 1);
    }
  }

  /** At most one gap per consecutive pair, each longer than 92 days, exactly
      the consecutive pairs more than 92 days apart, and none for fewer than two intervals. */
  lemma GapsFacts(norm: seq<Interval>)
    ensures |norm| < 2 ==> Gaps(norm) == []
    ensures |norm| >= 1 ==> |Gaps(norm)| <= |norm| - 1
    ensures forall g :: g in Gaps(norm) ==> g.days > GapDays
    ensures forall g :: g in Gaps(norm) <==>
      g.days > GapDays && exists i | 1 <= i < |norm| :: g == GapBetween(norm[i - 1], norm[i])
  {
    GapsUpToFacts(norm, |norm|);
  }

  // ---------- overlaps ----------

  /** An overlap record: the later role's start, the earlier of the two ends, and the days between. */
  datatype Window = Window(start: DateTime, end: DateTime, days: int)

  const ToleranceDays: int := 30

  /** `cur_s + tol < prev_e`. */
  predicate Overlapping(prev: Interval, cur: Interval) {
    PlusDaysBefore(cur.start, ToleranceDays, prev.end)
  }

  function OverlapBetween(prev: Interval, cur: Interval): Window {
    var end := MinTime(prev.end, cur.end);
    Window(cur.start, end, DaysBetween(cur.start, end))
  }

  function OverlapsUpTo(norm: seq<Interval>, n: nat): seq<Window>
    requires n <= |norm|
  {
    if n < 2 then []
    else
      OverlapsUpTo(norm, n - 1)
        + (if Overlapping(norm[n - 2], norm[n - 1]) then [OverlapBetween(norm[n - 2], norm[n - 1])] else [])
  }

  function Overlaps(norm: seq<Interval>): seq<Window> {
    OverlapsUpTo(norm, |norm|)
  }

  method DetectOverlaps(norm: seq<Interval>) returns (overlaps: seq<Window>)
    ensures overlaps == Overlaps(norm)
  {
    overlaps := [];
    if |norm| < 2 {
      return;
    }
    var i := 1;
    while i < |norm|
      invariant 1 <= i <= |norm|
      invariant overlaps == OverlapsUpTo(norm, i)
    {
      var prevE := norm[i - 1].end;
      var curS, curE := norm[i].start, norm[i].end;
      if PlusDaysBefore(curS, ToleranceDays, prevE) {
        var start := curS;
        var end := MinTime(prevE, curE);
        overlaps := overlaps + [Window(start, end, DaysBetween(start, end))];
      }
      i := i + 1;
    }
  }

  /** An overlap record for an ordered interval starting more than 30 days before the
      previous end has non-negative days. */
  lemma OverlapNonNegative(prev: Interval, cur: Interval)
    requires Ordered(cur) && Overlapping(prev, cur)
    ensures OverlapBetween(prev, cur).days >= 0
  {
    InstantOrder(cur.start, prev.end);
    var end := MinTime(prev.end, cur.end);
    OrderFacts(cur.start, cur.end, end);
    DaysBetweenNonNegative(cur.start, end);
  }

  lemma {:induction false} OverlapsUpToFacts(norm: seq<Interval>, n: nat)
    requires n <= |norm|
    ensures n < 2 ==> OverlapsUpTo(norm, n) == []
    ensures n >= 1 ==> |OverlapsUpTo(norm, n)| <= n - 1
    ensures forall w :: w in OverlapsUpTo(norm, n) <==>
      exists i | 1 <= i < n :: Overlapping(norm[i - 1], norm[i]) && w == OverlapBetween(norm[i - 1], norm[i])
  {
    if n >= 2 {
      OverlapsUpToFacts(norm, n - 1);
    }
  }

  /** Windows are recorded exactly for the consecutive pairs where the later start plus
      30 days is still before the earlier end; each starts at that later start, ends at
      the earlier of the two ends, and, for ordered intervals, has non-negative days. */
  lemma OverlapsFacts(norm: seq<Interval>)
    ensures |norm| < 2 ==> Overlaps(norm) == []
    ensures |norm| >= 1 ==> |Overlaps(norm)| <= |norm| - 1
    ensures forall w :: w in Overlaps(norm) <==>
      exists i | 1 <= i < |norm| :: Overlapping(norm[i - 1], norm[i]) && w == OverlapBetween(norm[i - 1], norm[i])
    ensures AllOrdered(norm) ==> forall w :: w in Overlaps(norm) ==> w.days >= 0
  {
    OverlapsUpToFacts(norm, |norm|);
    if AllOrdered(norm) {
      forall w | w in Overlaps(norm) ensures w.days >= 0 {
        var i :| 1 <= i < |norm| && Overlapping(norm[i - 1], norm[i]) && w == OverlapBetween(norm[i - 1], norm[i]);
        OverlapNonNegative(norm[i - 1], norm[i]);
      }
    }
  }
}
