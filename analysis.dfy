/** The text heuristics, profile enrichment, duplicate detection and flag
    assembly of the profile analysis (`services/analysis.py`). Regular
    expressions are given as the predicates and match lists they produce. */
module Analysis {
  import opened Seqs
  import opened Sorting
  import opened Text
  import opened Dates
  import opened Intervals
  import opened Records

  /** The regular expressions of the analysis, each as what one search produces. */
  datatype Patterns = Patterns(
    sensitive: string -> bool,                 // SENSITIVE_PAT.search on the job text
    percents: string -> seq<int>,              // PCT_PAT.finditer: the numbers before "%"/"percent"
    multipliers: string -> seq<int>,           // MULT_X_PAT.finditer: the numbers before "x"
    yearsRange: string -> Option<(real, real)>, // YEARS_RANGE_PAT.search: "3-5 years"
    yearsStated: string -> Option<real>,       // YEARS_STATED_PAT.search: "5+ years"
    timeframe: string -> bool,                 // \b(months?|years?|weeks?)\b
    phd: string -> bool,                       // the four DEG_MAP patterns
    masters: string -> bool,
    bachelor: string -> bool,
    diploma: string -> bool,
    certMatches: string -> seq<string>,        // every certs_pat match, pattern by pattern
    email: string -> Option<string>,
    phone: string -> Option<string>,
    links: string -> seq<string>,
    employmentKw: string -> bool,              // EMPLOYMENT_KW.search
    projectKw: string -> bool,                 // PROJECT_KW.search
    rangeNum: string -> Option<RawRange>,      // pat_num.search: "01/2020 - 03/2021"
    rangeYear: string -> Option<RawRange>)     // pat_year.search: "2019 - present"

  // ---------- stated years ----------

  /** `_extract_stated_years`: a range of years gives its midpoint and takes
      priority over a single stated value; empty text states nothing. */
  function ExtractStatedYears(text: string, pats: Patterns): (r: Option<real>)
    ensures text == "" ==> r == None
    ensures text != "" && pats.yearsRange(text).Some? ==>
      var (a, b) := pats.yearsRange(text).value;
      r.Some? && r.value - a == b - r.value && Min(a, b) <= r.value <= Max(a, b)
    ensures text != "" && pats.yearsRange(text).None? ==> r == pats.yearsStated(text)
  {
    if text == [] then None
    else
      match pats.yearsRange(text)
      case Some((a, b)) => Some((a + b) / 2.0)
      case None => pats.yearsStated(text)
  }

  // ---------- metric anomalies ----------

  const Superlatives: seq<string> := [
    "world-class", "world class", "best", "unparalleled", "unmatched", "exceptional",
    "revolutionary", "groundbreaking", "state-of-the-art", "cutting-edge", "cutting edge"]

  const ImprovementWords: seq<string> := [
    "increase", "increased", "increaseed", "boost", "boosted", "improve", "improved", "reduce", "reduced",
    "grew", "grow", "accelerate", "accelerated", "decrease", "decreased", "cut"]

  /** `sum(t.count(s) for s in words)`. */
  function SumCounts(t: string, words: seq<string>): nat
    requires forall w :: w in words ==> |w| > 0
  {
    if words == [] then 0 else Count(t, words[0]) + SumCounts(t, words[1..])
  }

  /** The integer order, the key of `sorted(set(vals))`. */
  predicate IntLe(a: int, b: int) {
    a <= b
  }

  lemma IntLeIsTotalPreorder()
    ensures TotalPreorder(IntLe)
  {
  }

  /** `sorted(set(vals))` for integers. */
  function SortedSet(vals: seq<int>): seq<int> {
    SortBy(Dedup(vals), IntLe)
  }

  /** Strictly increasing, with the same elements as the input. */
  lemma SortedSetFacts(vals: seq<int>)
    ensures forall i, j :: 0 <= i < j < |SortedSet(vals)| ==> SortedSet(vals)[i] < SortedSet(vals)[j]
    ensures forall v :: v in SortedSet(vals) <==> v in vals
  {
    var d := Dedup(vals);
    IntLeIsTotalPreorder();
    SortBySorted(d, IntLe);
    var r := SortBy(d, IntLe);
    DistinctPermutation(d, r);
    assert forall v :: v in r <==> multiset(r)[v] > 0;
    assert forall v :: v in d <==> multiset(d)[v] > 0;
  }

  predicate ExtremePercentValue(v: int) {
    v >= 300
  }

  predicate ExtremeMultiplierValue(v: int) {
    v >= 10
  }

  function PercentReasons(pct: seq<int>): seq<Reason> {
    var extreme := Filter(pct, ExtremePercentValue);
    if extreme != [] then [ExtremePercent(SortedSet(extreme))] else []
  }

  function MultiplierReasons(mult: seq<int>): seq<Reason> {
    var extreme := Filter(mult, ExtremeMultiplierValue);
    if extreme != [] then [ExtremeMultiplier(SortedSet(extreme))] else []
  }

  /** A reason for extreme values is given exactly when some value is extreme, and
      carries exactly the extreme values, strictly increasing. */
  lemma PercentReasonsFacts(pct: seq<int>)
    ensures |PercentReasons(pct)| <= 1
    ensures (exists v :: v in pct && v >= 300) <==> PercentReasons(pct) != []
    ensures forall x :: x in PercentReasons(pct) ==> (x.ExtremePercent?
      && (forall i, j :: 0 <= i < j < |x.values| ==> x.values[i] < x.values[j])
      && forall v :: v in x.values <==> v in pct && v >= 300)
  {
    var extreme := Filter(pct, ExtremePercentValue);
    SortedSetFacts(extreme);
    if exists v :: v in pct && v >= 300 {
      var v :| v in pct && v >= 300;
      assert v in extreme;
    }
    if extreme != [] {
      assert extreme[0] in extreme;
    }
  }

  lemma MultiplierReasonsFacts(mult: seq<int>)
    ensures |MultiplierReasons(mult)| <= 1
    ensures (exists v :: v in mult && v >= 10) <==> MultiplierReasons(mult) != []
    ensures forall x :: x in MultiplierReasons(mult) ==> (x.ExtremeMultiplier?
      && (forall i, j :: 0 <= i < j < |x.values| ==> x.values[i] < x.values[j])
      && forall v :: v in x.values <==> v in mult && v >= 10)
  {
    var extreme := Filter(mult, ExtremeMultiplierValue);
    SortedSetFacts(extreme);
    if exists v :: v in mult && v >= 10 {
      var v :| v in mult && v >= 10;
      assert v in extreme;
    }
    if extreme != [] {
      assert extreme[0] in extreme;
    }
  }

  function SuperlativeReasons(t: string, pct: seq<int>, mult: seq<int>): (r: seq<Reason>)
    ensures r == [] || r == [ManySuperlatives]
    ensures r != [] <==> SumCounts(t, Superlatives) >= 5 && pct == [] && mult == []
  {
    if SumCounts(t, Superlatives) >= 5 && pct == [] && mult == [] then [ManySuperlatives] else []
  }

  function TimeframeReasons(t: string, pats: Patterns): (r: seq<Reason>)
    ensures r == [] || r == [ClaimsWithoutTimeframe]
    ensures r != [] <==> AnyOccurs(t, ImprovementWords) && !pats.timeframe(t)
  {
    if AnyOccurs(t, ImprovementWords) && !pats.timeframe(t) then [ClaimsWithoutTimeframe] else []
  }

  /** The heuristics on the already lower-cased text `t`, in the order the source appends them. */
  function LoweredAnomalies(t: string, pats: Patterns): seq<Reason> {
    var pct, mult := pats.percents(t), pats.multipliers(t);
    PercentReasons(pct) + MultiplierReasons(mult) + SuperlativeReasons(t, pct, mult) + TimeframeReasons(t, pats)
  }

  /** `_metric_anomaly_heuristics`, which works on the lower-cased text. */
  function MetricAnomalies(text: string, pats: Patterns): seq<Reason> {
    if text == [] then [] else LoweredAnomalies(Lower(text), pats)
  }

  lemma LoweredAnomaliesFacts(t: string, pats: Patterns)
    ensures |LoweredAnomalies(t, pats)| <= 4
    ensures (exists v :: v in pats.percents(t) && v >= 300) <==>
      exists x :: x in LoweredAnomalies(t, pats) && x.ExtremePercent?
    ensures forall x :: x in LoweredAnomalies(t, pats) && x.ExtremePercent? ==>
      (forall i, j :: 0 <= i < j < |x.values| ==> x.values[i] < x.values[j])
      && forall v :: v in x.values <==> v in pats.percents(t) && v >= 300
    ensures (exists v :: v in pats.multipliers(t) && v >= 10) <==>
      exists x :: x in LoweredAnomalies(t, pats) && x.ExtremeMultiplier?
    ensures forall x :: x in LoweredAnomalies(t, pats) && x.ExtremeMultiplier? ==>
      (forall i, j :: 0 <= i < j < |x.values| ==> x.values[i] < x.values[j])
      && forall v :: v in x.values <==> v in pats.multipliers(t) && v >= 10
  {
    var pct, mult := pats.percents(t), pats.multipliers(t);
    var pr, mr := PercentReasons(pct), MultiplierReasons(mult);
    var sr, cr := SuperlativeReasons(t, pct, mult), TimeframeReasons(t, pats);
    PercentReasonsFacts(pct);
    MultiplierReasonsFacts(mult);
    var r := LoweredAnomalies(t, pats);
    assert r == pr + mr + sr + cr;
    forall x | x in r
      ensures x.ExtremePercent? ==> x in pr
      ensures x.ExtremeMultiplier? ==> x in mr
    {
    }
    if pr != [] {
      assert pr[0] in r;
    }
    if mr != [] {
      assert mr[0] in r;
    }
  }

  /** The superlative and timeframe reasons appear exactly under their conditions, and
      every reason is of one of the four metric kinds. */
  lemma LoweredAnomalyKinds(t: string, pats: Patterns)
    ensures ManySuperlatives in LoweredAnomalies(t, pats) <==>
      SumCounts(t, Superlatives) >= 5 && pats.percents(t) == [] && pats.multipliers(t) == []
    ensures ClaimsWithoutTimeframe in LoweredAnomalies(t, pats) <==> AnyOccurs(t, ImprovementWords) && !pats.timeframe(t)
    ensures forall x :: x in LoweredAnomalies(t, pats) ==>
      x.ExtremePercent? || x.ExtremeMultiplier? || x == ManySuperlatives || x == ClaimsWithoutTimeframe
  {
    var pct, mult := pats.percents(t), pats.multipliers(t);
    var pr, mr := PercentReasons(pct), MultiplierReasons(mult);
    var sr, cr := SuperlativeReasons(t, pct, mult), TimeframeReasons(t, pats);
    PercentReasonsFacts(pct);
    MultiplierReasonsFacts(mult);
    var r := LoweredAnomalies(t, pats);
    assert r == pr + mr + sr + cr;
    forall x | x in r
      ensures x.ExtremePercent? || x.ExtremeMultiplier? || x == ManySuperlatives || x == ClaimsWithoutTimeframe
      ensures x == ManySuperlatives ==> x in sr
      ensures x == ClaimsWithoutTimeframe ==> x in cr
    {
    }
    if sr != [] {
      assert sr[0] in r;
    }
    if cr != [] {
      assert cr[0] in r;
    }
  }

  /** The anomaly reasons: none for empty text; an extreme-percent reason exactly when
      some percentage is at least 300, carrying exactly those values in increasing order;
      likewise for multipliers of at least 10; the superlative reason exactly when there
      are at least five superlatives and no percentage or multiplier claim at all; the
      timeframe reason exactly when an improvement word occurs and no time unit does;
      and no reason of any other kind. */
  lemma MetricAnomaliesFacts(text: string, pats: Patterns)
    ensures text == "" ==> MetricAnomalies(text, pats) == []
    ensures |MetricAnomalies(text, pats)| <= 4
    ensures text != "" ==> var t := Lower(text);
      && ((exists v :: v in pats.percents(t) && v >= 300) <==>
          exists x :: x in MetricAnomalies(text, pats) && x.ExtremePercent?)
      && ((exists v :: v in pats.multipliers(t) && v >= 10) <==>
          exists x :: x in MetricAnomalies(text, pats) && x.ExtremeMultiplier?)
      && (ManySuperlatives in MetricAnomalies(text, pats) <==>
          SumCounts(t, Superlatives) >= 5 && pats.percents(t) == [] && pats.multipliers(t) == [])
      && (ClaimsWithoutTimeframe in MetricAnomalies(text, pats) <==> AnyOccurs(t, ImprovementWords) && !pats.timeframe(t))
    ensures forall x :: x in MetricAnomalies(text, pats) && x.ExtremePercent? ==>
      (forall i, j :: 0 <= i < j < |x.values| ==> x.values[i] < x.values[j])
      && forall v :: v in x.values <==> v in pats.percents(Lower(text)) && v >= 300
    ensures forall x :: x in MetricAnomalies(text, pats) && x.ExtremeMultiplier? ==>
      (forall i, j :: 0 <= i < j < |x.values| ==> x.values[i] < x.values[j])
      && forall v :: v in x.values <==> v in pats.multipliers(Lower(text)) && v >= 10
    ensures ManySuperlatives in MetricAnomalies(text, pats) ==>
      pats.percents(Lower(text)) == [] && pats.multipliers(Lower(text)) == []
    ensures forall x :: x in MetricAnomalies(text, pats) ==>
      x.ExtremePercent? || x.ExtremeMultiplier? || x == ManySuperlatives || x == ClaimsWithoutTimeframe
  {
    if text != [] {
      LoweredAnomaliesFacts(Lower(text), pats);
      LoweredAnomalyKinds(Lower(text), pats);
      assert MetricAnomalies(text, pats) == LoweredAnomalies(Lower(text), pats);
    }
  }

  // ---------- enrichment ----------

  const MultiSkills: seq<string> := [
    "machine learning", "data science", "deep learning", "natural language processing",
    "computer vision", "project management", "data analysis", "web development",
    "object oriented programming", "rest api", "microservices"]

  const SkillSynonyms: map<string, string> := map[
    "js" := "javascript", "nodejs" := "node", "ts" := "typescript", "tf" := "tensorflow",
    "scikit learn" := "scikit-learn", "nltk" := "nlp", "natural language processing" := "nlp",
    "ml" := "machine learning", "dl" := "deep learning"]

  predicate HasSynonym(tok: string) {
    tok != "" && tok in SkillSynonyms
  }

  /** The canonical names of the tokens that have a synonym entry, in token order. */
  function SynonymsIn(tokens: seq<string>): seq<string> {
    if tokens == [] then []
    else (if HasSynonym(tokens[0]) then [SkillSynonyms[tokens[0]]] else []) + SynonymsIn(tokens[1..])
  }

  lemma {:induction false} SynonymsInMembers(tokens: seq<string>)
    ensures forall x :: x in SynonymsIn(tokens) <==>
      exists tok :: tok in tokens && HasSynonym(tok) && x == SkillSynonyms[tok]
  {
    if tokens != [] {
      SynonymsInMembers(tokens[1..]);
      forall x | exists tok :: tok in tokens && HasSynonym(tok) && x == SkillSynonyms[tok]
        ensures x in SynonymsIn(tokens)
      {
        var tok :| tok in tokens && HasSynonym(tok) && x == SkillSynonyms[tok];
        if tok != tokens[0] {
          assert tok in tokens[1..];
        }
      }
      forall x | x in SynonymsIn(tokens)
        ensures exists tok :: tok in tokens && HasSynonym(tok) && x == SkillSynonyms[tok]
      {
        if x in SynonymsIn(tokens[1..]) {
          var tok :| tok in tokens[1..] && HasSynonym(tok) && x == SkillSynonyms[tok];
          assert tok in tokens;
        } else {
          assert tokens[0] in tokens;
        }
      }
    }
  }

  /** The skill set built from the lowered skills and the lowered text. */
  function EnrichedFrom(lowSkills: seq<string>, lowered: string): seq<string> {
    SortStrings(Dedup(lowSkills + PhrasesIn(MultiSkills, lowered) + SynonymsIn(TokenPieces(lowered))))
  }

  /** The enriched skill list: the lowered original skills, the multi-word phrases
      found in the lowered text and the canonical names of synonym tokens, as a sorted set. */
  function EnrichedSkills(skills: seq<string>, text: string): seq<string> {
    EnrichedFrom(LowerAll(skills), Lower(text))
  }

  lemma EnrichedFromFacts(lowSkills: seq<string>, lowered: string)
    ensures SortedBy(EnrichedFrom(lowSkills, lowered), StrLe)
    ensures Distinct(EnrichedFrom(lowSkills, lowered))
    ensures forall x :: x in EnrichedFrom(lowSkills, lowered) <==>
      || x in lowSkills
      || (x in MultiSkills && IsSubstring(x, lowered))
      || (exists tok :: tok in TokenPieces(lowered) && HasSynonym(tok) && x == SkillSynonyms[tok])
  {
    SynonymsInMembers(TokenPieces(lowered));
    SortStringsSet(Dedup(lowSkills + PhrasesIn(MultiSkills, lowered) + SynonymsIn(TokenPieces(lowered))));
  }

  /** Enriched skills are sorted and duplicate-free; they keep every original skill
      (lowered) and add exactly the phrases found in the text and the canonical names
      of the synonym tokens. */
  lemma EnrichedSkillsFacts(skills: seq<string>, text: string)
    ensures SortedBy(EnrichedSkills(skills, text), StrLe)
    ensures Distinct(EnrichedSkills(skills, text))
    ensures forall s :: s in skills ==> Lower(s) in EnrichedSkills(skills, text)
    ensures forall x :: x in EnrichedSkills(skills, text) <==>
      || (exists s :: s in skills && x == Lower(s))
      || (x in MultiSkills && IsSubstring(x, Lower(text)))
      || (exists tok :: tok in TokenPieces(Lower(text)) && HasSynonym(tok) && x == SkillSynonyms[tok])
  {
    EnrichedFromFacts(LowerAll(skills), Lower(text));
    LowerAllMembers(skills);
  }

  /** The two synonym keys that contain a space can never fire: tokens never contain one. */
  lemma SpacedSynonymKeysUnused(t: string)
    ensures forall tok :: tok in TokenPieces(t) ==> tok != "scikit learn" && tok != "natural language processing"
  {
    assert ' ' in "scikit learn" by {
      assert "scikit learn"[6] == ' ';
    }
    assert ' ' in "natural language processing" by {
      assert "natural language processing"[7] == ' ';
    }
    assert !IsTokenChar(' ');
  }

  /** The DEG_MAP search: the first level, in the order phd, masters, bachelor,
      diploma, whose pattern matches the line. */
  function LevelOf(line: string, pats: Patterns): (r: Option<Level>)
    ensures r == Some(Phd) <==> pats.phd(line)
    ensures r == Some(Masters) <==> !pats.phd(line) && pats.masters(line)
    ensures r == Some(Bachelor) <==> !pats.phd(line) && !pats.masters(line) && pats.bachelor(line)
    ensures r == Some(Diploma) <==>
      !pats.phd(line) && !pats.masters(line) && !pats.bachelor(line) && pats.diploma(line)
    ensures r == None <==>
      !pats.phd(line) && !pats.masters(line) && !pats.bachelor(line) && !pats.diploma(line)
  {
    if pats.phd(line) then Some(Phd)
    else if pats.masters(line) then Some(Masters)
    else if pats.bachelor(line) then Some(Bachelor)
    else if pats.diploma(line) then Some(Diploma)
    else None
  }

  /** `education_normalized`: one entry per education line with a recognised level, in order. */
  function NormalizeEducation(lines: seq<string>, pats: Patterns): (r: seq<EduNorm>)
    ensures |r| <= |lines|
  {
    if lines == [] then []
    else
      var rest := NormalizeEducation(lines[1..], pats);
      match LevelOf(lines[0], pats)
      case Some(lvl) => [EduNorm(lines[0], lvl)] + rest
      case None => rest
  }

  /** Every normalised entry is an education line together with the level its patterns give. */
  lemma {:induction false} NormalizeEducationFacts(lines: seq<string>, pats: Patterns)
    ensures forall e :: e in NormalizeEducation(lines, pats) ==> e.raw in lines && LevelOf(e.raw, pats) == Some(e.level)
  {
    if lines != [] {
      NormalizeEducationFacts(lines[1..], pats);
      forall e | e in NormalizeEducation(lines, pats)
        ensures e.raw in lines && LevelOf(e.raw, pats) == Some(e.level)
      {
        if e in NormalizeEducation(lines[1..], pats) {
          assert e.raw in lines[1..];
        }
      }
    }
  }

  predicate NonEmpty(s: string) {
    s != ""
  }

  /** The certification values: stripped matches, non-empty, first occurrences only. */
  function UniqueCertifications(matches: seq<string>): seq<string> {
    Dedup(Filter(Map(matches, Strip), NonEmpty))
  }

  const MaxCertifications: nat := 10

  /** The certification loop: strip each match, keep it when non-empty and not yet kept; then cap at 10. */
  method CollectCertifications(matches: seq<string>) returns (certs: seq<string>)
    ensures certs == Take(UniqueCertifications(matches), MaxCertifications)
  {
    ghost var vals := Map(matches, Strip);
    certs := [];
    var i := 0;
    while i < |matches|
      invariant 0 <= i <= |matches|
      invariant certs == Dedup(Filter(vals[..i], NonEmpty))
    {
      var val := Strip(matches[i]);
      assert val == vals[i];
      DedupFilterSnoc(vals, i, NonEmpty);
      if val != "" && val !in certs {
        certs := certs + [val];
      }
      i := i + 1;
    }
    assert vals[..i] == vals;
    certs := Take(certs, MaxCertifications);
  }

  /** Certifications are unique, at most ten, non-empty and stripped, each one a stripped
      match; when at most ten distinct values occur, every one of them is kept. */
  lemma CertificationsFacts(matches: seq<string>)
    ensures Distinct(Take(UniqueCertifications(matches), MaxCertifications))
    ensures |Take(UniqueCertifications(matches), MaxCertifications)| <= MaxCertifications
    ensures forall c :: c in Take(UniqueCertifications(matches), MaxCertifications) ==>
      c != "" && Stripped(c) && exists m :: m in matches && c == Strip(m)
    ensures |UniqueCertifications(matches)| <= MaxCertifications ==>
      forall m :: m in matches && Strip(m) != "" ==> Strip(m) in Take(UniqueCertifications(matches), MaxCertifications)
  {
    var u := UniqueCertifications(matches);
    var t := Take(u, MaxCertifications);
    MapMembers(matches, Strip);
    forall i, j | 0 <= i < j < |t| ensures t[i] != t[j] {
      assert t[i] == u[i] && t[j] == u[j];
    }
    forall c | c in t ensures c in u && exists m :: m in matches && c == Strip(m) && Stripped(c) {
      var k :| 0 <= k < |t| && t[k] == c;
      assert u[k] == c;
      assert c in Filter(Map(matches, Strip), NonEmpty);
      assert c in Map(matches, Strip);
      var m :| m in matches && c == Strip(m);
      StripFacts(m);
    }
  }

  const MaxLinks: nat := 5

  /** The contacts dict: first e-mail, first phone, the first five links. */
  function ExtractContacts(text: string, pats: Patterns): (c: Contacts)
    ensures |c.links| <= MaxLinks
    ensures c.links <= pats.links(text)
  {
    Contacts(pats.email(text), pats.phone(text), Take(pats.links(text), MaxLinks))
  }

  /** Python's `lines[lo:hi]` with clamped bounds. */
  function Slice(lines: seq<string>, lo: int, hi: int): seq<string> {
    var a := if lo < 0 then 0 else if lo > |lines| then |lines| else lo;
    var b := if hi < a then a else if hi > |lines| then |lines| else hi;
    lines[a..b]
  }

  /** A supplemental range taken from line `i`: the line is not blank and does not
      mention a project, the three-line context mentions employment, and a numeric
      range, or else a year range, occurs on the line. */
  function ExtraAt(lines: seq<string>, i: nat, pats: Patterns): Option<RawRange>
    requires i < |lines|
  {
    var l := Strip(lines[i]);
    if l == "" || pats.projectKw(l) then None
    else if !pats.employmentKw(JoinSpace(Slice(lines, i - 1, i + 2))) then None
    else if pats.rangeNum(l).Some? then pats.rangeNum(l)
    else pats.rangeYear(l)
  }

  function ExtraUpTo(lines: seq<string>, n: nat, pats: Patterns): seq<RawRange>
    requires n <= |lines|
  {
    if n == 0 then []
    else
      var m := ExtraAt(lines, n - 1, pats);
      ExtraUpTo(lines, n - 1, pats) + (if m.Some? then [m.value] else [])
  }

  /** `extra_ranges` of `_enrich_profile`, over the text's lines. */
  function ExtraRanges(text: string, pats: Patterns): seq<RawRange> {
    ExtraUpTo(SplitLines(text), |SplitLines(text)|, pats)
  }

  method SupplementalRanges(text: string, pats: Patterns) returns (extra: seq<RawRange>)
    ensures extra == ExtraRanges(text, pats)
  {
    var lines := SplitLines(text);
    extra := [];
    var i := 0;
    while i < |lines|
      invariant 0 <= i <= |lines|
      invariant extra == ExtraUpTo(lines, i, pats)
    {
      var l := Strip(lines[i]);
      if l != "" && !pats.projectKw(l) {
        var ctx := JoinSpace(Slice(lines, i - 1, i + 2));
        if pats.employmentKw(ctx) {
          var m := if pats.rangeNum(l).Some? then pats.rangeNum(l) else pats.rangeYear(l);
          if m.Some? {
            extra := extra + [m.value];
          }
        }
      }
      i := i + 1;
    }
  }

  /** Every supplemental range comes from a line that is neither blank nor about a project
      and whose context mentions employment. */
  lemma {:induction false} ExtraUpToFacts(lines: seq<string>, n: nat, pats: Patterns)
    requires n <= |lines|
    ensures forall r :: r in ExtraUpTo(lines, n, pats) ==>
      exists i | 0 <= i < n :: ExtraAt(lines, i, pats) == Some(r)
          && Strip(lines[i]) != "" && !pats.projectKw(Strip(lines[i]))
          && pats.employmentKw(JoinSpace(Slice(lines, i - 1, i + 2)))
  {
    if n > 0 {
      ExtraUpToFacts(lines, n - 1, pats);
    }
  }

  /** The append loop: each supplemental range not among the ranges present before is appended. */
  method AppendNewRanges(existing: seq<RawRange>, extra: seq<RawRange>) returns (ranges: seq<RawRange>)
    ensures ranges == existing + Without(extra, existing)
  {
    ranges := existing;
    var i := 0;
    while i < |extra|
      invariant 0 <= i <= |extra|
      invariant ranges == existing + Without(extra[..i], existing)
    {
      assert extra[..i + 1] == extra[..i] + [extra[i]];
      WithoutSnoc(extra[..i], extra[i], existing);
      if extra[i] !in existing {
        ranges := ranges + [extra[i]];
      }
      i := i + 1;
    }
    assert extra[..i] == extra;
  }

  /** The profile after `_enrich_profile`, as a function of the profile before. */
  function Enriched(p: ProfileData, text: string, pats: Patterns): ProfileData {
    ProfileData(
      EnrichedSkills(p.skills, text),
      p.education,
      p.experienceRanges + Without(ExtraRanges(text, pats), p.experienceRanges),
      NormalizeEducation(p.education, pats),
      Take(UniqueCertifications(pats.certMatches(Lower(text))), MaxCertifications),
      ExtractContacts(text, pats))
  }

  /** Enrichment is additive on experience ranges: the old ranges stay, in order, as a
      prefix, and only ranges not present before are appended; education lines are kept;
      certifications are unique and at most ten. */
  lemma EnrichedFacts(p: ProfileData, text: string, pats: Patterns)
    ensures p.experienceRanges <= Enriched(p, text, pats).experienceRanges
    ensures forall k :: |p.experienceRanges| <= k < |Enriched(p, text, pats).experienceRanges| ==>
      Enriched(p, text, pats).experienceRanges[k] !in p.experienceRanges
      && Enriched(p, text, pats).experienceRanges[k] in ExtraRanges(text, pats)
    ensures Enriched(p, text, pats).education == p.education
    ensures Distinct(Enriched(p, text, pats).certifications)
    ensures |Enriched(p, text, pats).certifications| <= MaxCertifications
  {
    var e := Enriched(p, text, pats);
    var added := Without(ExtraRanges(text, pats), p.experienceRanges);
    forall k | |p.experienceRanges| <= k < |e.experienceRanges|
      ensures e.experienceRanges[k] !in p.experienceRanges && e.experienceRanges[k] in ExtraRanges(text, pats)
    {
      assert e.experienceRanges[k] == added[k - |p.experienceRanges|];
    }
    CertificationsFacts(pats.certMatches(Lower(text)));
  }

  /** The resume profile dict, which `_enrich_profile` updates in place. */
  class Profile {
    var skills: seq<string>
    var education: seq<string>
    var experienceRanges: seq<RawRange>
    var educationNormalized: seq<EduNorm>
    var certifications: seq<string>
    var contacts: Contacts

    function Data(): ProfileData
      reads this
    {
      ProfileData(skills, education, experienceRanges, educationNormalized, certifications, contacts)
    }

    /** The dict `extract_profile` returns, before enrichment. */
    constructor (raw: RawProfile)
      ensures Data() == ProfileData(raw.skills, raw.education, raw.experienceRanges, [], [], Contacts(None, None, []))
    {
      skills := raw.skills;
      education := raw.education;
      experienceRanges := raw.experienceRanges;
      educationNormalized := [];
      certifications := [];
      contacts := Contacts(None, None, []);
    }

    /** `_enrich_profile(profile, text)`: overwrites the skills and the derived
        fields, and appends the new supplemental ranges. */
    method Enrich(text: string, pats: Patterns)
      modifies this
      ensures Data() == Enriched(old(Data()), text, pats)
    {
      var q := EnrichValues(Data(), text, pats);
      skills, experienceRanges, educationNormalized, certifications, contacts
        := q.skills, q.experienceRanges, q.educationNormalized, q.certifications, q.contacts;
    }
  }

  /** The values `_enrich_profile` writes into the profile dict. */
  method EnrichValues(p: ProfileData, text: string, pats: Patterns) returns (q: ProfileData)
    ensures q == Enriched(p, text, pats)
  {
    var certs := CollectCertifications(pats.certMatches(Lower(text)));
    var ranges := AddSupplementalRanges(p.experienceRanges, text, pats);
    q := ProfileData(EnrichedSkills(p.skills, text), p.education, ranges,
                     NormalizeEducation(p.education, pats), certs, ExtractContacts(text, pats));
  }

  /** The supplemental-range step of `_enrich_profile`: ranges found on lines of the
      text are appended when they are not present yet. */
  method AddSupplementalRanges(existing: seq<RawRange>, text: string, pats: Patterns) returns (ranges: seq<RawRange>)
    ensures ranges == existing + Without(ExtraRanges(text, pats), existing)
  {
    var extra := SupplementalRanges(text, pats);
    ranges := existing;
    if extra != [] {
      ranges := AppendNewRanges(ranges, extra);
    } else {
      assert Without(extra, ranges) == [];
    }
  }

  // ---------- duplicates ----------

  /** The comparison key of a line: stripped and lowered. */
  function DupKey(line: string): string {
    Lower(Strip(line))
  }

  const MinDupLength: nat := 15
  const MaxDups: nat := 5

  /** The `seen` set after the first `n` lines: their non-blank keys. The scan is stated
      for any key and reported-value functions; the analysis uses `DupKey` and `Strip`. */
  function SeenUpTo(lines: seq<string>, key: string -> string, n: nat): set<string>
    requires n <= |lines|
  {
    if n == 0 then {}
    else SeenUpTo(lines, key, n - 1) + (if key(lines[n - 1]) == "" then {} else {key(lines[n - 1])})
  }

  /** Line `i` has a non-blank key that was seen before and is longer than 15 characters. */
  predicate IsDupAt(lines: seq<string>, key: string -> string, i: nat)
    requires i < |lines|
  {
    key(lines[i]) != "" && key(lines[i]) in SeenUpTo(lines, key, i) && |key(lines[i])| > MinDupLength
  }

  /** The reported values of the flagged lines among the first `n`, before the cap. */
  function AllDupsUpTo(lines: seq<string>, key: string -> string, val: string -> string, n: nat): seq<string>
    requires n <= |lines|
  {
    if n == 0 then []
    else AllDupsUpTo(lines, key, val, n - 1) + (if IsDupAt(lines, key, n - 1) then [val(lines[n - 1])] else [])
  }

  /** `_detect_duplicates(lines)`: the stripped lines whose key repeats an earlier one, at most five. */
  function Duplicates(lines: seq<string>): seq<string> {
    Take(AllDupsUpTo(lines, DupKey, Strip, |lines|), MaxDups)
  }

  /** The scan loop of `_detect_duplicates`, for any key and value functions. */
  method ScanDuplicates(lines: seq<string>, key: string -> string, val: string -> string) returns (dups: seq<string>)
    ensures dups == Take(AllDupsUpTo(lines, key, val, |lines|), MaxDups)
  {
    var seen: set<string> := {};
    dups := [];
    var i := 0;
    while i < |lines|
      invariant 0 <= i <= |lines|
      invariant seen == SeenUpTo(lines, key, i)
      invariant dups == AllDupsUpTo(lines, key, val, i)
    {
      var k := key(lines[i]);
      if k != "" {
        if k in seen && |k| > MinDupLength {
          dups := dups + [val(lines[i])];
        }
        seen := seen + {k};
      }
      i := i + 1;
    }
    dups := Take(dups, MaxDups);
  }

  /** `_detect_duplicates`: the key is the stripped, lowered line; the value reported is the stripped line. */
  method DetectDuplicates(lines: seq<string>) returns (dups: seq<string>)
    ensures dups == Duplicates(lines)
  {
    dups := ScanDuplicates(lines, DupKey, Strip);
  }

  lemma {:induction false} SeenUpToFacts(lines: seq<string>, key: string -> string, n: nat)
    requires n <= |lines|
    ensures forall k :: k in SeenUpTo(lines, key, n) <==> k != "" && exists j | 0 <= j < n :: key(lines[j]) == k
  {
    if n > 0 {
      SeenUpToFacts(lines, key, n - 1);
    }
  }

  lemma {:induction false} AllDupsUpToFacts(lines: seq<string>, key: string -> string, val: string -> string, n: nat)
    requires n <= |lines|
    ensures forall d :: d in AllDupsUpTo(lines, key, val, n) <==>
      exists i | 0 <= i < n :: IsDupAt(lines, key, i) && d == val(lines[i])
  {
    if n > 0 {
      AllDupsUpToFacts(lines, key, val, n - 1);
    }
  }

  /** A line is flagged exactly when its key is longer than 15 characters and equals
      the key of an earlier line. */
  lemma IsDupAtIff(lines: seq<string>, key: string -> string, i: nat)
    requires i < |lines|
    ensures IsDupAt(lines, key, i) <==> |key(lines[i])| > MinDupLength && exists j | 0 <= j < i :: key(lines[j]) == key(lines[i])
  {
    SeenUpToFacts(lines, key, i);
  }

  /** The duplicate scan for any key and value functions: at most five results; each is
      the value of a line whose key is longer than 15 characters and equals the key of
      an earlier line; when at most five lines qualify, every qualifying line is reported. */
  lemma DuplicatesByFacts(lines: seq<string>, key: string -> string, val: string -> string)
    ensures |Take(AllDupsUpTo(lines, key, val, |lines|), MaxDups)| <= MaxDups
    ensures forall d :: d in Take(AllDupsUpTo(lines, key, val, |lines|), MaxDups) ==>
      exists i, j | 0 <= j < i < |lines| ::
        d == val(lines[i]) && |key(lines[i])| > MinDupLength && key(lines[j]) == key(lines[i])
    ensures |AllDupsUpTo(lines, key, val, |lines|)| <= MaxDups ==>
      forall i, j | 0 <= j < i < |lines| && |key(lines[i])| > MinDupLength && key(lines[j]) == key(lines[i]) ::
        val(lines[i]) in Take(AllDupsUpTo(lines, key, val, |lines|), MaxDups)
  {
    var all := AllDupsUpTo(lines, key, val, |lines|);
    var dups := Take(all, MaxDups);
    AllDupsUpToFacts(lines, key, val, |lines|);
    forall d | d in dups
      ensures exists i, j | 0 <= j < i < |lines| ::
        d == val(lines[i]) && |key(lines[i])| > MinDupLength && key(lines[j]) == key(lines[i])
    {
      var k :| 0 <= k < |dups| && dups[k] == d;
      assert all[k] == d;
      assert d in all;
      var i :| 0 <= i < |lines| && IsDupAt(lines, key, i) && d == val(lines[i]);
      IsDupAtIff(lines, key, i);
    }
    forall i, j | 0 <= j < i < |lines| && |key(lines[i])| > MinDupLength && key(lines[j]) == key(lines[i])
      ensures IsDupAt(lines, key, i)
    {
      IsDupAtIff(lines, key, i);
    }
  }

  /** At most five duplicates; each is a stripped line whose key (stripped, lowered) is
      longer than 15 characters and equals the key of an earlier line; when at most five
      lines qualify, every qualifying line is reported. */
  lemma DuplicatesFacts(lines: seq<string>)
    ensures |Duplicates(lines)| <= MaxDups
    ensures forall d :: d in Duplicates(lines) ==>
      exists i, j | 0 <= j < i < |lines| ::
        d == Strip(lines[i]) && |DupKey(lines[i])| > MinDupLength && DupKey(lines[j]) == DupKey(lines[i])
    ensures |AllDupsUpTo(lines, DupKey, Strip, |lines|)| <= MaxDups ==>
      forall i, j | 0 <= j < i < |lines| && |DupKey(lines[i])| > MinDupLength && DupKey(lines[j]) == DupKey(lines[i]) ::
        Strip(lines[i]) in Duplicates(lines)
  {
    DuplicatesByFacts(lines, DupKey, Strip);
  }

  // ---------- flags and the whole analysis ----------

  function FlagRank(f: Flag): int {
    match f
    case EmploymentGaps => 0
    case OverlappingRoles => 1
    case DuplicateClaims => 2
    case SensitiveJobDescription => 3
    case PotentialExaggeration => 4
  }

  /** The `flags` list: each flag raised once, exactly when its condition holds, in the fixed order. */
  function AssembleFlags(gaps: bool, overlaps: bool, dups: bool, sensitive: bool, exaggeration: bool): (r: seq<Flag>)
    ensures EmploymentGaps in r <==> gaps
    ensures OverlappingRoles in r <==> overlaps
    ensures DuplicateClaims in r <==> dups
    ensures SensitiveJobDescription in r <==> sensitive
    ensures PotentialExaggeration in r <==> exaggeration
    ensures forall i, j :: 0 <= i < j < |r| ==> FlagRank(r[i]) < FlagRank(r[j])
  {
    (if gaps then [EmploymentGaps] else [])
      + (if overlaps then [OverlappingRoles] else [])
      + (if dups then [DuplicateClaims] else [])
      + (if sensitive then [SensitiveJobDescription] else [])
      + (if exaggeration then [PotentialExaggeration] else [])
  }

  /** `missing_hard_skills` of the analysis: lowered hard skills not among the lowered enriched skills, sorted. */
  function MissingSkills(hardSkills: seq<string>, skills: seq<string>): seq<string> {
    SortStrings(Without(Dedup(LowerAll(hardSkills)), LowerAll(skills)))
  }

  /** Sorted, duplicate-free, and exactly the lowered hard skills that are not a lowered skill. */
  lemma MissingSkillsFacts(hardSkills: seq<string>, skills: seq<string>)
    ensures SortedBy(MissingSkills(hardSkills, skills), StrLe)
    ensures Distinct(MissingSkills(hardSkills, skills))
    ensures forall x :: x in MissingSkills(hardSkills, skills) <==>
      (exists h :: h in hardSkills && x == Lower(h)) && forall s :: s in skills ==> x != Lower(s)
  {
    var kept := Without(Dedup(LowerAll(hardSkills)), LowerAll(skills));
    WithoutDistinct(Dedup(LowerAll(hardSkills)), LowerAll(skills));
    SortStringsSet(kept);
    LowerAllMembers(hardSkills);
    LowerAllMembers(skills);
  }

  const MinMonths: real := 2.0
  const StatedTolerance: real := 1.5
  const VeryLowYears: real := 0.25

  /** The duration plausibility test: a stated figure more than 1.5 years from the tenure. */
  predicate DurationMismatch(totalYears: real, stated: Option<real>) {
    stated.Some? && Abs(totalYears - stated.value) > StatedTolerance
  }

  function Abs(x: real): real {
    if x < 0.0 then -x else x
  }

  /** The sorted, non-inverted, long-enough intervals the analysis works on. */
  function WorkingIntervals(p: ProfileData, parse: Parser, now: DateTime): seq<Interval> {
    FilterShort(NormalizedRanges(p.experienceRanges, parse, now), MinMonths)
  }

  /** Months to years (`total_months / 12.0`). */
  function Years(months: real): (r: real)
    ensures r * 12.0 == months
  {
    months / 12.0
  }

  function AnomalyReasons(text: string, totalYears: real, stated: Option<real>, pats: Patterns): seq<Reason> {
    if text != "" then
      MetricAnomalies(text, pats)
        + (if DurationMismatch(totalYears, stated) then [DurationInconsistency] else [])
    else if totalYears < VeryLowYears then [VeryLowTotalExperience]
    else []
  }

  /** The metric heuristics never report the duration or very-low-tenure reasons. */
  lemma MetricAnomaliesExclude(text: string, pats: Patterns)
    ensures DurationInconsistency !in MetricAnomalies(text, pats)
    ensures VeryLowTotalExperience !in MetricAnomalies(text, pats)
  {
    MetricAnomaliesFacts(text, pats);
  }

  /** With text: every metric reason is kept, the duration reason appears exactly when a
      stated figure differs from the tenure by more than the tolerance, and very-low tenure
      is never reported.  Without text: only the very-low-tenure reason, exactly when the
      tenure is below a quarter year. */
  lemma AnomalyReasonsFacts(text: string, totalYears: real, stated: Option<real>, pats: Patterns)
    ensures var r := AnomalyReasons(text, totalYears, stated, pats);
      && (text != "" ==>
        && (forall x :: x in MetricAnomalies(text, pats) ==> x in r)
        && (DurationInconsistency in r <==> DurationMismatch(totalYears, stated))
        && VeryLowTotalExperience !in r)
      && (text == "" ==> (r == [] || r == [VeryLowTotalExperience]) && (r != [] <==> totalYears < VeryLowYears))
  {
    if text != "" {
      MetricAnomaliesExclude(text, pats);
      var m := MetricAnomalies(text, pats);
      var d := if DurationMismatch(totalYears, stated) then [DurationInconsistency] else [];
      assert AnomalyReasons(text, totalYears, stated, pats) == m + d;
      assert DurationInconsistency !in m;
    }
  }

  /** The result assembled from the enriched profile, the working intervals and the total tenure in years. */
  function AnalysisFrom(p: ProfileData, jobText: string, hardSkills: seq<string>, text: string,
                        pats: Patterns, norm: seq<Interval>): AnalysisResult
  {
    var gaps, overlaps := Gaps(norm), Overlaps(norm);
    var totalYears := Years(TotalExperienceMonths(norm));
    var stated := ExtractStatedYears(text, pats);
    var reasons := AnomalyReasons(text, totalYears, stated, pats);
    var flags := AssembleFlags(gaps != [], overlaps != [], Duplicates(p.education) != [], pats.sensitive(jobText), reasons != []);
    AnalysisResult(gaps, overlaps, totalYears, stated, flags, reasons, MissingSkills(hardSkills, p.skills),
      p.contacts, Take(p.certifications, MaxCertifications), Take(p.educationNormalized, 10))
  }

  /** `analyze_profile_vs_job` on an already enriched profile. */
  function Analyze(p: ProfileData, jobText: string, hardSkills: seq<string>, text: string,
                   pats: Patterns, parse: Parser, now: DateTime): AnalysisResult
  {
    AnalysisFrom(p, jobText, hardSkills, text, pats, WorkingIntervals(p, parse, now))
  }

  /** `analyze_profile_vs_job`: enriches the caller's profile in place, then analyses it. */
  method AnalyzeProfileVsJob(profile: Profile, jobText: string, hardSkills: seq<string>, text: string,
                             pats: Patterns, parse: Parser, now: DateTime) returns (res: AnalysisResult)
    modifies profile
    ensures profile.Data() == Enriched(old(profile.Data()), text, pats)
    ensures res == Analyze(profile.Data(), jobText, hardSkills, text, pats, parse, now)
  {
    profile.Enrich(text, pats);
    ghost var p := profile.Data();
    var norm := NormalizeRanges(profile.experienceRanges, parse, now);
    norm := FilterShort(norm, MinMonths);
    assert norm == WorkingIntervals(p, parse, now);
    var gaps := FindGaps(norm);
    var overlaps := DetectOverlaps(norm);
    var runs := MergeIntervals(norm);
    var totalYears := Years(SumMonths(runs));
    var stated := ExtractStatedYears(text, pats);
    var dups := DetectDuplicates(profile.education);
    var reasons := AnomalyReasons(text, totalYears, stated, pats);
    var flags := AssembleFlags(gaps != [], overlaps != [], dups != [], pats.sensitive(jobText), reasons != []);
    var missing := MissingSkills(hardSkills, profile.skills);
    res := AnalysisResult(gaps, overlaps, totalYears, stated, flags, reasons, missing,
      profile.contacts, Take(profile.certifications, MaxCertifications), Take(profile.educationNormalized, 10));
    assert res == AnalysisFrom(p, jobText, hardSkills, text, pats, norm);
  }

  /** What the analysis promises: each flag is raised exactly when its evidence is
      present, exaggeration exactly when there is an anomaly reason, every gap is longer
      than 92 days, every overlap window has non-negative days, total tenure is never
      negative; without resume text the only possible reason is very low tenure, and with
      it the duration reason appears exactly on a mismatch with the stated years and very
      low tenure is never a reason. */
  lemma AnalyzeFacts(p: ProfileData, jobText: string, hardSkills: seq<string>, text: string,
                     pats: Patterns, parse: Parser, now: DateTime)
    ensures var a := Analyze(p, jobText, hardSkills, text, pats, parse, now);
      && (EmploymentGaps in a.flags <==> a.gaps != [])
      && (OverlappingRoles in a.flags <==> a.overlaps != [])
      && (DuplicateClaims in a.flags <==> Duplicates(p.education) != [])
      && (SensitiveJobDescription in a.flags <==> pats.sensitive(jobText))
      && (PotentialExaggeration in a.flags <==> a.anomalyReasons != [])
      && (forall g :: g in a.gaps ==> g.days > GapDays)
      && (forall w :: w in a.overlaps ==> w.days >= 0)
      && a.totalYears >= 0.0
      && (text == "" ==> a.statedYears == None && (a.anomalyReasons != [] <==> a.totalYears < VeryLowYears))
      && (text != "" ==>
        && (DurationInconsistency in a.anomalyReasons <==> DurationMismatch(a.totalYears, a.statedYears))
        && VeryLowTotalExperience !in a.anomalyReasons)
  {
    var norm0 := NormalizedRanges(p.experienceRanges, parse, now);
    NormalizedRangesFacts(p.experienceRanges, parse, now);
    FilterShortFacts(norm0, MinMonths);
    var norm := WorkingIntervals(p, parse, now);
    GapsFacts(norm);
    OverlapsFacts(norm);
    AnalysisFromReasons(p, jobText, hardSkills, text, pats, norm);
  }

  /** With resume text the result's anomaly reasons carry the duration reason exactly when
      its stated years are more than 1.5 from its tenure, and never the very-low-tenure reason. */
  lemma AnalysisFromReasons(p: ProfileData, jobText: string, hardSkills: seq<string>, text: string,
                            pats: Patterns, norm: seq<Interval>)
    ensures var a := AnalysisFrom(p, jobText, hardSkills, text, pats, norm);
      text != "" ==>
        && (DurationInconsistency in a.anomalyReasons <==>
            DurationMismatch(a.totalYears, a.statedYears))
        && VeryLowTotalExperience !in a.anomalyReasons
  {
    var totalYears := Years(TotalExperienceMonths(norm));
    var stated := ExtractStatedYears(text, pats);
    AnomalyReasonsFacts(text, totalYears, stated, pats);
  }
}
