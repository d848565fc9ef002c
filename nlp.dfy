/** `services/nlp.py`: `extract_profile`, the first pass over a resume's text. It
    collects skills from a taxonomy and a fixed phrase list, keeps the lines that
    look like education, and records date ranges with a line-by-line state machine
    tracking whether the current section is about experience or about projects.
    The regular expressions are uninterpreted predicates; the taxonomy is an input. */
module Nlp {
  import opened Seqs
  import opened Sorting
  import opened Text
  import opened Intervals
  import opened Records

  /** The searches `extract_profile` performs, each on the string it is given. */
  datatype NlpPatterns = NlpPatterns(
    degree: string -> bool,                 // the degree regex, case-insensitive
    monthYear: string -> bool,              // date_pat.search: a month name and a year
    range: string -> Option<RawRange>,      // range_pat.search: groups 1 and 2
    expHead: string -> bool,                // exp_head.search
    projHead: string -> bool,               // proj_head.search
    employmentKw: string -> bool,           // employment_kw.search
    projectKw: string -> bool)              // project_kw.search

  /** The `multi` phrase list. */
  const NlpPhrases: seq<string> := [
    "machine learning", "data science", "deep learning", "natural language processing",
    "computer vision", "project management", "data analysis", "web development"]

  const MaxEducation: nat := 10
  const MaxRanges: nat := 10

  /* ---------- Skills ---------- */

  predicate InTaxonomy(tok: string, taxonomy: set<string>) {
    tok != "" && tok in taxonomy
  }

  /** The non-empty tokens that are taxonomy entries, in token order. */
  function TaxonomyTokens(tokens: seq<string>, taxonomy: set<string>): (r: seq<string>)
    ensures |r| <= |tokens|
  {
    if tokens == [] then []
    else
      var n := |tokens| - 1;
      TaxonomyTokens(tokens[..n], taxonomy) + (if InTaxonomy(tokens[n], taxonomy) then [tokens[n]] else [])
  }

  lemma {:induction false} TaxonomyTokensMembers(tokens: seq<string>, taxonomy: set<string>)
    ensures forall x :: x in TaxonomyTokens(tokens, taxonomy) <==> x in tokens && InTaxonomy(x, taxonomy)
  {
    if tokens != [] {
      var n := |tokens| - 1;
      TaxonomyTokensMembers(tokens[..n], taxonomy);
      assert forall x :: x in tokens <==> x in tokens[..n] || x == tokens[n];
    }
  }

  lemma TaxonomyTokensSnoc(tokens: seq<string>, i: nat, taxonomy: set<string>)
    requires i < |tokens|
    ensures TaxonomyTokens(tokens[..i + 1], taxonomy)
         == TaxonomyTokens(tokens[..i], taxonomy) + (if InTaxonomy(tokens[i], taxonomy) then [tokens[i]] else [])
  {
    assert tokens[..i + 1][..i] == tokens[..i];
  }

  /** Everything added to `skills_found`, in the order it is added. */
  function SkillPool(lowered: string, taxonomy: set<string>): seq<string> {
    TaxonomyTokens(TokenPieces(lowered), taxonomy) + PhrasesIn(NlpPhrases, lowered)
  }

  /** `sorted(skills_found)`. */
  function Skills(text: string, taxonomy: set<string>): seq<string> {
    SortStrings(Dedup(SkillPool(Lower(text), taxonomy)))
  }

  /** The token loop: each taxonomy token is added to `skills_found`. */
  method CollectTokens(tokens: seq<string>, taxonomy: set<string>) returns (found: seq<string>)
    ensures found == Dedup(TaxonomyTokens(tokens, taxonomy))
  {
    found := [];
    var i := 0;
    while i < |tokens|
      invariant 0 <= i <= |tokens|
      invariant found == Dedup(TaxonomyTokens(tokens[..i], taxonomy))
    {
      var tok := tokens[i];
      ghost var pre := TaxonomyTokens(tokens[..i], taxonomy);
      TaxonomyTokensSnoc(tokens, i, taxonomy);
      if InTaxonomy(tok, taxonomy) {
        assert TaxonomyTokens(tokens[..i + 1], taxonomy) == pre + [tok];
        DedupSnoc(pre, tok);
        if tok !in found {
          found := found + [tok];
        }
      } else {
        assert TaxonomyTokens(tokens[..i + 1], taxonomy) == pre;
      }
      i := i + 1;
    }
    assert tokens[..i] == tokens;
  }

  /** The phrase loop: each phrase occurring in the text is added to `skills_found`. */
  method AddPhrases(found: seq<string>, base: seq<string>, phrases: seq<string>, lowered: string)
    returns (found': seq<string>)
    requires found == Dedup(base)
    ensures found' == Dedup(base + PhrasesIn(phrases, lowered))
  {
    found' := found;
    assert base + PhrasesIn(phrases[..0], lowered) == base;
    var j := 0;
    while j < |phrases|
      invariant 0 <= j <= |phrases|
      invariant found' == Dedup(base + PhrasesIn(phrases[..j], lowered))
    {
      var phrase := phrases[j];
      ghost var pre := base + PhrasesIn(phrases[..j], lowered);
      assert phrases[..j + 1][..j] == phrases[..j];
      if IsSubstring(phrase, lowered) {
        assert base + PhrasesIn(phrases[..j + 1], lowered) == pre + [phrase];
        DedupSnoc(pre, phrase);
        if phrase !in found' {
          found' := found' + [phrase];
        }
      } else {
        assert base + PhrasesIn(phrases[..j + 1], lowered) == pre;
      }
      j := j + 1;
    }
    assert phrases[..j] == phrases;
  }

  /** The skills are sorted and duplicate-free, and are exactly the non-empty taxonomy
      tokens of the lowered text and the fixed phrases that occur in it. */
  lemma SkillsFacts(text: string, taxonomy: set<string>)
    ensures SortedBy(Skills(text, taxonomy), StrLe)
    ensures Distinct(Skills(text, taxonomy))
    ensures forall x :: x in Skills(text, taxonomy) <==>
      || (x in TokenPieces(Lower(text)) && InTaxonomy(x, taxonomy))
      || (x in NlpPhrases && IsSubstring(x, Lower(text)))
  {
    TaxonomyTokensMembers(TokenPieces(Lower(text)), taxonomy);
    SortStringsSet(Dedup(SkillPool(Lower(text), taxonomy)));
  }

  /* ---------- Education ---------- */

  /** The stripped non-blank lines among the first `n` that match the degree pattern. */
  function EducationUpTo(lines: seq<string>, n: nat, pats: NlpPatterns): seq<string>
    requires n <= |lines|
  {
    if n == 0 then []
    else
      var l := Strip(lines[n - 1]);
      EducationUpTo(lines, n - 1, pats) + (if l != "" && pats.degree(l) then [l] else [])
  }

  /** The education loop. */
  method CollectEducation(lines: seq<string>, pats: NlpPatterns) returns (education: seq<string>)
    ensures education == EducationUpTo(lines, |lines|, pats)
  {
    education := [];
    var i := 0;
    while i < |lines|
      invariant 0 <= i <= |lines|
      invariant education == EducationUpTo(lines, i, pats)
    {
      var l := Strip(lines[i]);
      if l != "" && pats.degree(l) {
        education := education + [l];
      }
      i := i + 1;
    }
  }

  /** Every education entry is a non-empty stripped line of the text that matches the
      degree pattern; their number never exceeds the number of lines. */
  lemma {:induction false} EducationFacts(lines: seq<string>, n: nat, pats: NlpPatterns)
    requires n <= |lines|
    ensures |EducationUpTo(lines, n, pats)| <= n
    ensures forall l :: l in EducationUpTo(lines, n, pats) ==>
      l != "" && Stripped(l) && pats.degree(l) && exists i :: 0 <= i < n && l == Strip(lines[i])
  {
    if n > 0 {
      EducationFacts(lines, n - 1, pats);
      var l := Strip(lines[n - 1]);
      StripFacts(lines[n - 1]);
      forall x | x in EducationUpTo(lines, n, pats)
        ensures x != "" && Stripped(x) && pats.degree(x) && exists i :: 0 <= i < n && x == Strip(lines[i])
      {
        if x !in EducationUpTo(lines, n - 1, pats) {
          assert x == l;
        }
      }
    }
  }

  /* ---------- Sections ---------- */

  datatype Section = NoSection | Experience | Projects

  /** The section detection step on a non-blank stripped line: the experience heading
      wins over the projects heading; a line with neither keeps the section. */
  function NextSection(s: Section, line: string, pats: NlpPatterns): (r: Section)
    ensures pats.expHead(line) ==> r == Experience
    ensures !pats.expHead(line) && pats.projHead(line) ==> r == Projects
    ensures !pats.expHead(line) && !pats.projHead(line) ==> r == s
  {
    if pats.expHead(line) then Experience else if pats.projHead(line) then Projects else s
  }

  /** `section` after the first `n` lines; blank lines are skipped before detection. */
  function SectionAfter(lines: seq<string>, n: nat, pats: NlpPatterns): Section
    requires n <= |lines|
  {
    if n == 0 then NoSection
    else
      var l := Strip(lines[n - 1]);
      if l == "" then SectionAfter(lines, n - 1, pats) else NextSection(SectionAfter(lines, n - 1, pats), l, pats)
  }

  /** Line `j` is a non-blank line matching one of the two section headings. */
  predicate HeadingAt(lines: seq<string>, j: nat, pats: NlpPatterns)
    requires j < |lines|
  {
    Strip(lines[j]) != "" && (pats.expHead(Strip(lines[j])) || pats.projHead(Strip(lines[j])))
  }

  /** The section is set by the last heading line: none before the first heading,
      experience when the last heading matched the experience pattern (whatever else
      it matched), projects when it matched only the projects pattern. */
  lemma {:induction false} SectionAfterFacts(lines: seq<string>, n: nat, pats: NlpPatterns)
    requires n <= |lines|
    ensures SectionAfter(lines, n, pats) == NoSection <==> forall j :: 0 <= j < n ==> !HeadingAt(lines, j, pats)
    ensures SectionAfter(lines, n, pats) == Experience <==>
      exists j :: 0 <= j < n && HeadingAt(lines, j, pats) && pats.expHead(Strip(lines[j]))
        && forall k :: j < k < n ==> !HeadingAt(lines, k, pats)
    ensures SectionAfter(lines, n, pats) == Projects <==>
      exists j :: 0 <= j < n && HeadingAt(lines, j, pats) && !pats.expHead(Strip(lines[j]))
        && forall k :: j < k < n ==> !HeadingAt(lines, k, pats)
  {
    if n > 0 {
      SectionAfterFacts(lines, n - 1, pats);
      var m := n - 1;
      var l := Strip(lines[m]);
      if HeadingAt(lines, m, pats) {
        if pats.expHead(l) {
          assert SectionAfter(lines, n, pats) == Experience;
          assert !(forall j :: 0 <= j < n ==> !HeadingAt(lines, j, pats));
          forall j | 0 <= j < n && HeadingAt(lines, j, pats) && !pats.expHead(Strip(lines[j]))
            ensures exists k :: j < k < n && HeadingAt(lines, k, pats)
          {
            assert j != m;
          }
        } else {
          assert SectionAfter(lines, n, pats) == Projects;
          assert !(forall j :: 0 <= j < n ==> !HeadingAt(lines, j, pats));
          forall j | 0 <= j < n && HeadingAt(lines, j, pats) && pats.expHead(Strip(lines[j]))
            ensures exists k :: j < k < n && HeadingAt(lines, k, pats)
          {
            assert j != m;
          }
        }
      } else {
        assert SectionAfter(lines, n, pats) == SectionAfter(lines, m, pats);
        assert forall j :: 0 <= j < n && HeadingAt(lines, j, pats) ==> j < m;
      }
    }
  }

  /* ---------- Ranges ---------- */

  /** The window `" ".join((previous raw line, stripped line, next raw line))`, with
      an empty string where there is no neighbour. */
  function Window(lines: seq<string>, i: nat, line: string): string
    requires i < |lines|
  {
    JoinSpace([if i >= 1 then lines[i - 1] else "", line, if i + 1 < |lines| then lines[i + 1] else ""])
  }

  /** The line mentions "present" or "current", or a month and a year. */
  predicate Dated(line: string, pats: NlpPatterns) {
    IsSubstring("present", Lower(line)) || IsSubstring("current", Lower(line)) || pats.monthYear(line)
  }

  /** The range recorded for line `i` when the current section is `section`. */
  function RangeAt(lines: seq<string>, i: nat, section: Section, pats: NlpPatterns): Option<RawRange>
    requires i < |lines|
  {
    var l := Strip(lines[i]);
    if l == "" || !Dated(l, pats) then None
    else
      var w := Window(lines, i, l);
      var m := pats.range(w);
      if m.None? || section == Projects then None
      else if section == Experience || (pats.employmentKw(w) && !pats.projectKw(w)) then m
      else None
  }

  /** A range is recorded for a line exactly when the line is non-blank and dated, the
      window holds a full range (the one recorded), the section is not projects, and
      either the section is experience or the window has employment words and no
      project words. */
  lemma RangeAtFacts(lines: seq<string>, i: nat, section: Section, pats: NlpPatterns, r: RawRange)
    requires i < |lines|
    ensures RangeAt(lines, i, section, pats) == Some(r) <==>
      var l := Strip(lines[i]);
      var w := Window(lines, i, l);
      && l != "" && Dated(l, pats)
      && pats.range(w) == Some(r)
      && section != Projects
      && (section == Experience || (pats.employmentKw(w) && !pats.projectKw(w)))
  {
  }

  /** The range recorded for line `i`; the section used is the one after the line's
      own heading check. */
  function RangeRecordedAt(lines: seq<string>, i: nat, pats: NlpPatterns): Option<RawRange>
    requires i < |lines|
  {
    RangeAt(lines, i, SectionAfter(lines, i + 1, pats), pats)
  }

  /** The ranges recorded over the first `n` lines. */
  function RangesUpTo(lines: seq<string>, n: nat, pats: NlpPatterns): seq<RawRange>
    requires n <= |lines|
  {
    if n == 0 then []
    else
      var m := RangeRecordedAt(lines, n - 1, pats);
      RangesUpTo(lines, n - 1, pats) + (if m.Some? then [m.value] else [])
  }

  /** One pass of the range loop: the heading check, then the range check. */
  method RangeStep(lines: seq<string>, i: nat, section: Section, pats: NlpPatterns)
    returns (section': Section, m: Option<RawRange>)
    requires i < |lines|
    requires section == SectionAfter(lines, i, pats)
    ensures section' == SectionAfter(lines, i + 1, pats)
    ensures m == RangeRecordedAt(lines, i, pats)
  {
    section', m := section, None;
    var line := Strip(lines[i]);
    if line != "" {
      if pats.expHead(line) {
        section' := Experience;
      } else if pats.projHead(line) {
        section' := Projects;
      }
      if IsSubstring("present", Lower(line)) || IsSubstring("current", Lower(line)) || pats.monthYear(line) {
        var window := Window(lines, i, line);
        var found := pats.range(window);
        if found.Some? && section' != Projects {
          if section' == Experience || (pats.employmentKw(window) && !pats.projectKw(window)) {
            m := found;
          }
        }
      }
    }
  }

  /** The range loop: the section state machine and the recording of ranges. */
  method CollectRanges(lines: seq<string>, pats: NlpPatterns) returns (ranges: seq<RawRange>)
    ensures ranges == RangesUpTo(lines, |lines|, pats)
  {
    ranges := [];
    var section := NoSection;
    var i := 0;
    while i < |lines|
      invariant 0 <= i <= |lines|
      invariant section == SectionAfter(lines, i, pats)
      invariant ranges == RangesUpTo(lines, i, pats)
    {
      var m;
      section, m := RangeStep(lines, i, section, pats);
      if m.Some? {
        ranges := ranges + [m.value];
      }
      i := i + 1;
    }
  }

  /** Every recorded range is the one `RangeAt` gives for one of the lines, under the
      section in force at that line; there are at most as many ranges as lines. */
  lemma {:induction false} RangesFacts(lines: seq<string>, n: nat, pats: NlpPatterns)
    requires n <= |lines|
    ensures |RangesUpTo(lines, n, pats)| <= n
    ensures forall r :: r in RangesUpTo(lines, n, pats) ==>
      exists i :: 0 <= i < n && RangeRecordedAt(lines, i, pats) == Some(r)
  {
    if n > 0 {
      RangesFacts(lines, n - 1, pats);
      var m := RangeRecordedAt(lines, n - 1, pats);
      forall r | r in RangesUpTo(lines, n, pats)
        ensures exists i :: 0 <= i < n && RangeRecordedAt(lines, i, pats) == Some(r)
      {
        if r !in RangesUpTo(lines, n - 1, pats) {
          assert m == Some(r);
        }
      }
    }
  }

  /* ---------- The profile ---------- */

  /** What `extract_profile` returns for `text`. */
  function ProfileOf(text: string, taxonomy: set<string>, pats: NlpPatterns): RawProfile {
    var lines := SplitLines(text);
    RawProfile(Skills(text, taxonomy),
      Take(EducationUpTo(lines, |lines|, pats), MaxEducation),
      Take(RangesUpTo(lines, |lines|, pats), MaxRanges))
  }

  /** `extract_profile(nlp, text)`. */
  method ExtractProfile(text: string, taxonomy: set<string>, pats: NlpPatterns) returns (p: RawProfile)
    ensures p == ProfileOf(text, taxonomy, pats)
  {
    var lowered := Lower(text);
    var found := CollectTokens(TokenPieces(lowered), taxonomy);
    found := AddPhrases(found, TaxonomyTokens(TokenPieces(lowered), taxonomy), NlpPhrases, lowered);
    var lines := SplitLines(text);
    var education := CollectEducation(lines, pats);
    var ranges := CollectRanges(lines, pats);
    p := RawProfile(SortStrings(found), Take(education, MaxEducation), Take(ranges, MaxRanges));
  }

  /** The output caps: at most ten education lines and ten ranges, each education
      line non-empty, stripped and a degree match, each range recorded from a line. */
  lemma ProfileFacts(text: string, taxonomy: set<string>, pats: NlpPatterns)
    ensures var p := ProfileOf(text, taxonomy, pats);
      && |p.education| <= MaxEducation && |p.experienceRanges| <= MaxRanges
      && SortedBy(p.skills, StrLe) && Distinct(p.skills)
      && (forall l :: l in p.education ==> l != "" && Stripped(l) && pats.degree(l))
      && p.education <= EducationUpTo(SplitLines(text), |SplitLines(text)|, pats)
      && p.experienceRanges <= RangesUpTo(SplitLines(text), |SplitLines(text)|, pats)
  {
    var lines := SplitLines(text);
    SkillsFacts(text, taxonomy);
    EducationFacts(lines, |lines|, pats);
  }
}
