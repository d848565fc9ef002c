/** `services/scoring.py`: keyword coverage, trend detection, the blended overall
    score with its capped bonuses and penalties, confidence, the separate risk
    score, and the final stable ranking. The TF-IDF cosine similarities are an
    input sequence; the trend table is an input. Scores are exact reals. */
module Scoring {
  import opened Seqs
  import opened Sorting
  import opened Text
  import opened Intervals
  import opened Records
  import Analysis

  /* ---------- Lower-cased sets ---------- */

  /** `_lower_set`: the distinct lower-cased items (a Python set, iterated once). */
  function LowerSet(items: seq<string>): (r: seq<string>)
    ensures Distinct(r)
    ensures forall y :: y in r <==> y in LowerAll(items)
  {
    Dedup(LowerAll(items))
  }

  /** `s in text_lower or s in cand_skills`. */
  predicate Hit(s: string, textLower: string, candSkills: seq<string>) {
    IsSubstring(s, textLower) || s in candSkills
  }

  /* ---------- Trend skills ---------- */

  /** The trend table as `(skill, weight)` pairs in dict order. */
  type TrendTable = seq<(string, real)>

  predicate NonNegativeWeights(table: TrendTable) {
    forall i :: 0 <= i < |table| ==> table[i].1 >= 0.0
  }

  /** Some entry of the table has key `k`. */
  predicate HasKey(table: TrendTable, k: string) {
    exists i :: 0 <= i < |table| && table[i].0 == k
  }

  predicate DistinctKeys(table: TrendTable) {
    forall i, j :: 0 <= i < j < |table| ==> table[i].0 != table[j].0
  }

  function TotalWeight(table: TrendTable): real {
    if table == [] then 0.0 else TotalWeight(table[..|table| - 1]) + table[|table| - 1].1
  }

  /** `TREND_TOTAL = max(1e-6, sum(weights))`. */
  const MinTrendTotal: real := 0.000001

  function TrendTotal(table: TrendTable): (r: real)
    ensures r >= MinTrendTotal
    ensures r >= TotalWeight(table)
  {
    Max(MinTrendTotal, TotalWeight(table))
  }

  /** The keys of the entries the candidate hits, in table order. */
  function TrendHits(table: TrendTable, textLower: string, candSkills: seq<string>): (r: seq<string>)
    ensures |r| <= |table|
  {
    if table == [] then []
    else
      var last := table[|table| - 1];
      TrendHits(table[..|table| - 1], textLower, candSkills)
        + (if Hit(last.0, textLower, candSkills) then [last.0] else [])
  }

  /** The summed weight of those entries. */
  function HitWeight(table: TrendTable, textLower: string, candSkills: seq<string>): real {
    if table == [] then 0.0
    else
      var last := table[|table| - 1];
      HitWeight(table[..|table| - 1], textLower, candSkills)
        + (if Hit(last.0, textLower, candSkills) then last.1 else 0.0)
  }

  /** `min(1.0, score_sum / TREND_TOTAL) if TREND_TOTAL > 0 else 0.0`. */
  function TrendScore(table: TrendTable, textLower: string, candSkills: seq<string>): (r: real)
    ensures r <= 1.0
  {
    var total := TrendTotal(table);
    if total > 0.0 then Min(1.0, HitWeight(table, textLower, candSkills) / total) else 0.0
  }

  /** `_detect_trend_skills`: walks the table once, collecting hits and their weight. */
  method DetectTrendSkills(table: TrendTable, textLower: string, candSkills: seq<string>)
    returns (matched: seq<string>, score: real)
    ensures matched == SortStrings(TrendHits(table, textLower, candSkills))
    ensures score == TrendScore(table, textLower, candSkills)
  {
    var found: seq<string> := [];
    var sum := 0.0;
    var i := 0;
    while i < |table|
      invariant 0 <= i <= |table|
      invariant found == TrendHits(table[..i], textLower, candSkills)
      invariant sum == HitWeight(table[..i], textLower, candSkills)
    {
      var (skill, weight) := table[i];
      assert table[..i + 1][..i] == table[..i];
      if Hit(skill, textLower, candSkills) {
        found := found + [skill];
        sum := sum + weight;
      }
      i := i + 1;
    }
    assert table[..i] == table;
    matched := SortStrings(found);
    var total := TrendTotal(table);
    score := if total > 0.0 then Min(1.0, sum / total) else 0.0;
  }

  /** A key is reported exactly when some entry with that key is hit. */
  lemma {:induction false} TrendHitsMembers(table: TrendTable, textLower: string, candSkills: seq<string>)
    ensures forall k :: k in TrendHits(table, textLower, candSkills) <==>
      HasKey(table, k) && Hit(k, textLower, candSkills)
  {
    if table != [] {
      var init := table[..|table| - 1];
      TrendHitsMembers(init, textLower, candSkills);
      forall k ensures HasKey(table, k) <==> HasKey(init, k) || table[|table| - 1].0 == k {
        if HasKey(table, k) {
          var i :| 0 <= i < |table| && table[i].0 == k;
          if i < |init| {
            assert init[i].0 == k;
          }
        }
        if HasKey(init, k) {
          var i :| 0 <= i < |init| && init[i].0 == k;
          assert table[i].0 == k;
        }
      }
    }
  }

  /** With distinct keys no key is reported twice. */
  lemma {:induction false} TrendHitsDistinct(table: TrendTable, textLower: string, candSkills: seq<string>)
    requires DistinctKeys(table)
    ensures Distinct(TrendHits(table, textLower, candSkills))
  {
    if table != [] {
      var init := table[..|table| - 1];
      var last := table[|table| - 1];
      assert DistinctKeys(init) by {
        forall i, j | 0 <= i < j < |init| ensures init[i].0 != init[j].0 {
          assert init[i] == table[i] && init[j] == table[j];
        }
      }
      TrendHitsDistinct(init, textLower, candSkills);
      TrendHitsMembers(init, textLower, candSkills);
      forall i | 0 <= i < |init| ensures init[i].0 != last.0 {
        assert init[i] == table[i];
      }
      assert !HasKey(init, last.0);
    }
  }

  /** The hit weight is never negative and never exceeds the total weight. */
  lemma {:induction false} HitWeightBounds(table: TrendTable, textLower: string, candSkills: seq<string>)
    requires NonNegativeWeights(table)
    ensures 0.0 <= HitWeight(table, textLower, candSkills) <= TotalWeight(table)
  {
    if table != [] {
      var init := table[..|table| - 1];
      assert NonNegativeWeights(init) by {
        forall i | 0 <= i < |init| ensures init[i].1 >= 0.0 {
          assert init[i] == table[i];
        }
      }
      HitWeightBounds(init, textLower, candSkills);
      assert table[|table| - 1].1 >= 0.0;
    }
  }

  /** What `_detect_trend_skills` promises: a sorted list of exactly the hit keys, and
      a score in [0, 1]; it reaches 1 only when the hit weight reaches the total. */
  lemma TrendFacts(table: TrendTable, textLower: string, candSkills: seq<string>)
    requires NonNegativeWeights(table)
    ensures SortedBy(SortStrings(TrendHits(table, textLower, candSkills)), StrLe)
    ensures forall k :: k in SortStrings(TrendHits(table, textLower, candSkills)) <==>
      HasKey(table, k) && Hit(k, textLower, candSkills)
    ensures 0.0 <= TrendScore(table, textLower, candSkills) <= 1.0
    ensures TotalWeight(table) >= MinTrendTotal ==>
      TrendScore(table, textLower, candSkills) == HitWeight(table, textLower, candSkills) / TotalWeight(table)
  {
    var hits := TrendHits(table, textLower, candSkills);
    TrendHitsMembers(table, textLower, candSkills);
    SortStringsMembers(hits);
    TrendScoreBounds(table, textLower, candSkills);
  }

  /** The trend score lies in [0, 1] and is the plain ratio once the total exceeds its floor. */
  lemma TrendScoreBounds(table: TrendTable, textLower: string, candSkills: seq<string>)
    requires NonNegativeWeights(table)
    ensures 0.0 <= TrendScore(table, textLower, candSkills) <= 1.0
    ensures TotalWeight(table) >= MinTrendTotal ==>
      TrendScore(table, textLower, candSkills) == HitWeight(table, textLower, candSkills) / TotalWeight(table)
  {
    HitWeightBounds(table, textLower, candSkills);
    var w, total := HitWeight(table, textLower, candSkills), TrendTotal(table);
    RatioBounds(w, total);
  }

  /** A part over a positive whole that bounds it is a fraction in [0, 1]. */
  lemma RatioBounds(part: real, whole: real)
    requires 0.0 <= part <= whole && 0.0 < whole
    ensures 0.0 <= part / whole <= 1.0
  {
    assert part / whole * whole == part;
  }

  /* ---------- Keyword coverage ---------- */

  /** The items the candidate shows, in item order. */
  function Shown(items: seq<string>, textLower: string, candSkills: seq<string>): (r: seq<string>)
    ensures |r| <= |items|
  {
    if items == [] then []
    else (if Hit(items[0], textLower, candSkills) then [items[0]] else []) + Shown(items[1..], textLower, candSkills)
  }

  /** The items shown neither in the text nor among the skills. */
  function NotShown(items: seq<string>, textLower: string, candSkills: seq<string>): (r: seq<string>)
    ensures |r| <= |items|
  {
    if items == [] then []
    else (if !Hit(items[0], textLower, candSkills) then [items[0]] else []) + NotShown(items[1..], textLower, candSkills)
  }

  /** The items that are both a skill and mentioned in the text. */
  function Corroborated(items: seq<string>, textLower: string, candSkills: seq<string>): (r: seq<string>)
    ensures |r| <= |items|
  {
    if items == [] then []
    else
      (if items[0] in candSkills && IsSubstring(items[0], textLower) then [items[0]] else [])
        + Corroborated(items[1..], textLower, candSkills)
  }

  /** Membership in the three selections. */
  lemma {:induction false} ShownMembers(items: seq<string>, textLower: string, candSkills: seq<string>)
    ensures forall x :: x in Shown(items, textLower, candSkills) <==> x in items && Hit(x, textLower, candSkills)
    ensures forall x :: x in NotShown(items, textLower, candSkills) <==> x in items && !Hit(x, textLower, candSkills)
    ensures forall x :: x in Corroborated(items, textLower, candSkills) <==>
      x in items && x in candSkills && IsSubstring(x, textLower)
  {
    if items != [] {
      ShownMembers(items[1..], textLower, candSkills);
      assert forall x :: x in items <==> x == items[0] || x in items[1..];
    }
  }

  /** Every item is either shown or not shown. */
  lemma {:induction false} ShownSplit(items: seq<string>, textLower: string, candSkills: seq<string>)
    ensures |Shown(items, textLower, candSkills)| + |NotShown(items, textLower, candSkills)| == |items|
    ensures |Corroborated(items, textLower, candSkills)| <= |Shown(items, textLower, candSkills)|
  {
    if items != [] {
      ShownSplit(items[1..], textLower, candSkills);
    }
  }

  /** `(hits / max(1, len(items))) if items else 0.0`. */
  function Coverage(hits: nat, total: nat): (r: real)
    ensures total == 0 ==> r == 0.0
    ensures hits <= total ==> 0.0 <= r <= 1.0
  {
    if total == 0 then 0.0 else hits as real / total as real
  }

  /** `0.7 * hard_cov + 0.3 * nice_cov`. */
  function KeywordScore(hardCov: real, niceCov: real): (r: real)
    ensures 0.0 <= hardCov <= 1.0 && 0.0 <= niceCov <= 1.0 ==> 0.0 <= r <= 1.0
  {
    0.7 * hardCov + 0.3 * niceCov
  }

  /** `float(semantic_scores[i]) if i < len(semantic_scores) else 0.0`. */
  function SemanticAt(scores: seq<real>, i: nat): (r: real)
    ensures i < |scores| ==> r == scores[i]
    ensures i >= |scores| ==> r == 0.0
  {
    if i < |scores| then scores[i] else 0.0
  }

  /** `0.5 * keyword + 0.35 * semantic + 0.15 * trend`. */
  function BaseOverall(keyword: real, semantic: real, trend: real): (r: real)
    ensures 0.0 <= keyword <= 1.0 && 0.0 <= semantic <= 1.0 && 0.0 <= trend <= 1.0 ==> 0.0 <= r <= 1.0
  {
    0.5 * keyword + 0.35 * semantic + 0.15 * trend
  }

  /* ---------- Job-description emphasis ---------- */

  /** The literal alternatives of `JD_CERT_KEYS`. */
  const CertKeys: seq<string> := ["aws", "azure", "gcp", "certified", "cissp", "pmp", "cka", "ckad", "rhce", "oci", "oracle"]

  /** The literal alternatives of `JD_COMPLIANCE_KEYS`; `soc\s*2` and `iso\s*27001` are `SpacedOccurs`. */
  const ComplianceKeys: seq<string> := ["pci", "hipaa", "sox", "gdpr"]

  /** The regex `a\s*b` finds a match in `s`. */
  predicate SpacedOccurs(s: string, a: string, b: string) {
    exists i, j | 0 <= i && i + |a| <= j <= |s| :: OccursAt(s, a, i) && AllSpace(s[i + |a|..j]) && OccursAt(s, b, j)
  }

  predicate CertFocus(jdLower: string) {
    AnyOccurs(jdLower, CertKeys)
  }

  predicate ComplianceFocus(jdLower: string) {
    AnyOccurs(jdLower, ComplianceKeys) || SpacedOccurs(jdLower, "soc", "2") || SpacedOccurs(jdLower, "iso", "27001")
  }

  /** The `jd_tags` appended to every explanation. */
  datatype JdTag = CertificationsEmphasis | ComplianceEmphasis

  function JdTags(certFocus: bool, complianceFocus: bool): (r: seq<JdTag>)
    ensures CertificationsEmphasis in r <==> certFocus
    ensures ComplianceEmphasis in r <==> complianceFocus
    ensures |r| <= 2
  {
    (if certFocus then [CertificationsEmphasis] else []) + (if complianceFocus then [ComplianceEmphasis] else [])
  }

  /** What `score_candidates` computes once per call from the job and the skill lists. */
  datatype JobContext = JobContext(
    certFocus: bool, complianceFocus: bool, tags: seq<JdTag>, hardLower: seq<string>, niceLower: seq<string>)

  function ContextOf(jobText: string, hardSkills: seq<string>, niceSkills: seq<string>): (r: JobContext)
    ensures r.certFocus == CertFocus(Lower(jobText))
    ensures r.complianceFocus == ComplianceFocus(Lower(jobText))
    ensures Distinct(r.hardLower) && Distinct(r.niceLower)
  {
    var jd := Lower(jobText);
    var cert, comp := CertFocus(jd), ComplianceFocus(jd);
    JobContext(cert, comp, JdTags(cert, comp), LowerSet(hardSkills), LowerSet(niceSkills))
  }

  /* ---------- Bonuses ---------- */

  /** `min(cert_cap, 0.03 * len(certs))`, the cap being 0.08 under certification emphasis. */
  function CertBonus(count: nat, certFocus: bool): (r: real)
    ensures 0.0 <= r <= 0.03 * count as real
    ensures r <= (if certFocus then 0.08 else 0.06)
    ensures r == 0.03 * count as real || r == (if certFocus then 0.08 else 0.06)
  {
    Min(if certFocus then 0.08 else 0.06, 0.03 * count as real)
  }

  /** The `levels` table. */
  function LevelBonus(l: Level): real {
    match l
    case Phd => 0.06
    case Masters => 0.03
    case Bachelor => 0.01
    case Diploma => 0.0
  }

  /** `highest` after the education loop: the first level seen, replaced only by a
      level with a strictly larger bonus. */
  function Highest(edu: seq<EduNorm>): Option<Level> {
    if edu == [] then None
    else
      var h, l := Highest(edu[..|edu| - 1]), edu[|edu| - 1].level;
      if h.None? || LevelBonus(l) > LevelBonus(h.value) then Some(l) else h
  }

  /** `levels.get(highest, 0.0)`. */
  function BonusOf(h: Option<Level>): real {
    if h.None? then 0.0 else LevelBonus(h.value)
  }

  /** The education loop of `score_candidates`. */
  method HighestLevel(edu: seq<EduNorm>) returns (highest: Option<Level>)
    ensures highest == Highest(edu)
  {
    highest := None;
    var i := 0;
    while i < |edu|
      invariant 0 <= i <= |edu|
      invariant highest == Highest(edu[..i])
    {
      var lvl := edu[i].level;
      assert edu[..i + 1][..i] == edu[..i];
      if highest.None? || LevelBonus(lvl) > LevelBonus(highest.value) {
        highest := Some(lvl);
      }
      i := i + 1;
    }
    assert edu[..i] == edu;
  }

  /** The education bonus is the bonus of the best level present, and 0 without one. */
  lemma {:induction false} EducationBonusFacts(edu: seq<EduNorm>)
    ensures edu == [] ==> BonusOf(Highest(edu)) == 0.0
    ensures forall e :: e in edu ==> LevelBonus(e.level) <= BonusOf(Highest(edu))
    ensures edu != [] ==> exists e :: e in edu && LevelBonus(e.level) == BonusOf(Highest(edu))
    ensures 0.0 <= BonusOf(Highest(edu)) <= 0.06
  {
    if edu != [] {
      var init, last := edu[..|edu| - 1], edu[|edu| - 1];
      EducationBonusFacts(init);
      assert edu == init + [last];
      assert forall e :: e in edu ==> e in init || e == last;
      var h := Highest(init);
      if h.None? || LevelBonus(last.level) > LevelBonus(h.value) {
        assert Highest(edu) == Some(last.level);
      } else {
        assert Highest(edu) == h;
        assert init != [];
        var e :| e in init && LevelBonus(e.level) == BonusOf(h);
        assert e in edu;
      }
    }
  }

  /** `bool(contacts.get("email"))` and its siblings. */
  predicate HasEmail(c: Contacts) {
    c.email.Some? && c.email.value != ""
  }

  predicate HasPhone(c: Contacts) {
    c.phone.Some? && c.phone.value != ""
  }

  predicate HasLinks(c: Contacts) {
    c.links != []
  }

  /** `min(0.02, 0.007 [email] + 0.007 [phone] + 0.006 [links])`. */
  function ContactBonus(email: bool, phone: bool, links: bool): (r: real)
    ensures 0.0 <= r <= 0.02
    ensures r == 0.0 <==> !email && !phone && !links
    ensures r == 0.02 <==> email && phone && links
  {
    Min(0.02, (if email then 0.007 else 0.0) + (if phone then 0.007 else 0.0) + (if links then 0.006 else 0.0))
  }

  /* ---------- Penalties ---------- */

  /** The `PEN` table; the sensitive-job-description flag carries no penalty. */
  function FlagPenalty(f: Flag): real {
    match f
    case EmploymentGaps => 0.05
    case OverlappingRoles => 0.03
    case DuplicateClaims => 0.02
    case PotentialExaggeration => 0.04
    case SensitiveJobDescription => 0.0
  }

  /** The sum the flag loop accumulates (a repeated flag counts every time). */
  function RawPenalty(flags: seq<Flag>): real {
    if flags == [] then 0.0 else RawPenalty(flags[..|flags| - 1]) + FlagPenalty(flags[|flags| - 1])
  }

  /** `penalty_sum = min(0.10, ...)`. */
  function PenaltySum(flags: seq<Flag>): real {
    Min(0.10, RawPenalty(flags))
  }

  /** The flag loop of `score_candidates`. */
  method AccumulatePenalty(flags: seq<Flag>) returns (penalty: real)
    ensures penalty == PenaltySum(flags)
  {
    var sum := 0.0;
    var i := 0;
    while i < |flags|
      invariant 0 <= i <= |flags|
      invariant sum == RawPenalty(flags[..i])
    {
      assert flags[..i + 1][..i] == flags[..i];
      sum := sum + FlagPenalty(flags[i]);
      i := i + 1;
    }
    assert flags[..i] == flags;
    penalty := Min(0.10, sum);
  }

  /** The penalty is capped at 0.10, and is 0 exactly when no penalised flag is present. */
  lemma PenaltyFacts(flags: seq<Flag>)
    ensures 0.0 <= PenaltySum(flags) <= 0.10
    ensures PenaltySum(flags) == 0.0 <==> forall f :: f in flags ==> f == SensitiveJobDescription
  {
    RawPenaltyFacts(flags);
  }

  lemma {:induction false} RawPenaltyFacts(flags: seq<Flag>)
    ensures RawPenalty(flags) >= 0.0
    ensures RawPenalty(flags) == 0.0 <==> forall f :: f in flags ==> f == SensitiveJobDescription
  {
    if flags != [] {
      var init, last := flags[..|flags| - 1], flags[|flags| - 1];
      RawPenaltyFacts(init);
      assert flags == init + [last];
      assert forall f :: f in flags <==> f in init || f == last;
      assert RawPenalty(flags) == RawPenalty(init) + FlagPenalty(last);
      assert 0.0 <= FlagPenalty(last) && (FlagPenalty(last) == 0.0 <==> last == SensitiveJobDescription);
      assert last in flags;
      if forall f :: f in flags ==> f == SensitiveJobDescription {
        forall f | f in init ensures f == SensitiveJobDescription {
          assert f in flags;
        }
      }
    }
  }

  /* ---------- Overall score ---------- */

  /** `max(0.0, min(1.0, base + bonuses - penalty))`. */
  function Overall(base: real, cert: real, edu: real, contact: real, penalty: real): (r: real)
    ensures 0.0 <= r <= 1.0
    ensures 0.0 <= base + cert + edu + contact - penalty <= 1.0 ==> r == base + cert + edu + contact - penalty
  {
    Clamp01(base + cert + edu + contact - penalty)
  }

  /** `consistent_hits / max(1, len(hard_lower))`. */
  function Consistency(hits: nat, total: nat): (r: real)
    ensures hits <= total ==> 0.0 <= r <= 1.0
  {
    hits as real / (if total < 1 then 1 else total) as real
  }

  /** 0.02 from one half consistent, 0.01 from one quarter. */
  function ConsistencyTier(consistency: real): (r: real)
    ensures r == 0.02 <==> consistency >= 0.5
    ensures r == 0.01 <==> 0.25 <= consistency < 0.5
    ensures r == 0.0 <==> consistency < 0.25
  {
    if consistency >= 0.5 then 0.02 else if consistency >= 0.25 then 0.01 else 0.0
  }

  /** The consistency bonus cut to the margin left below 1. */
  function ConsistencyBonus(overall: real, consistency: real): (r: real)
    ensures 0.0 <= r <= ConsistencyTier(consistency)
    ensures overall + ConsistencyTier(consistency) <= 1.0 ==> r == ConsistencyTier(consistency)
    ensures overall <= 1.0 ==> overall + r <= 1.0
    ensures overall <= 1.0 && overall + ConsistencyTier(consistency) > 1.0 ==> r == 1.0 - overall
  {
    var b := ConsistencyTier(consistency);
    if overall + b > 1.0 then Max(0.0, 1.0 - overall) else b
  }

  /** `max(0.0, min(1.0, overall + consistency_bonus))`. */
  function FinalOverall(overall: real, consistency: real): (r: real)
    ensures 0.0 <= r <= 1.0
    ensures 0.0 <= overall <= 1.0 ==> r == overall + ConsistencyBonus(overall, consistency) && r >= overall
    ensures 0.0 <= overall <= 1.0 && overall + ConsistencyTier(consistency) > 1.0 ==> r == 1.0
  {
    Clamp01(overall + ConsistencyBonus(overall, consistency))
  }

  /** `0.5 * agreement + 0.25 * hard_cov + 0.25 * (1 - min(1, penalty))`, clamped. */
  function Confidence(keyword: real, semantic: real, hardCov: real, penalty: real): (r: real)
    ensures 0.0 <= r <= 1.0
    ensures 0.0 <= keyword <= 1.0 && 0.0 <= semantic <= 1.0 && 0.0 <= hardCov <= 1.0 && 0.0 <= penalty ==>
      r == 0.5 * (1.0 - Analysis.Abs(keyword - semantic)) + 0.25 * hardCov + 0.25 * (1.0 - Min(1.0, penalty))
  {
    var agreement := 1.0 - Min(1.0, Analysis.Abs(keyword - semantic));
    Clamp01(0.5 * agreement + 0.25 * hardCov + 0.25 * (1.0 - Min(1.0, penalty)))
  }

  /* ---------- Risk ---------- */

  datatype RiskReason =
    | GapsRisk            // employment_gaps
    | OverlapRisk         // overlapping_roles
    | DuplicateRisk       // duplicate_claims
    | ExaggerationRisk    // exaggeration
    | NoExperienceDates   // no_experience_dates
    | MissingContact      // missing_contact

  function RiskWeight(r: RiskReason): real {
    match r
    case GapsRisk => 0.25
    case OverlapRisk => 0.2
    case DuplicateRisk => 0.15
    case ExaggerationRisk => 0.2
    case NoExperienceDates => 0.15
    case MissingContact => 0.1
  }

  /** `risk_reasons`, in the order the checks append them. */
  function RiskReasons(flags: seq<Flag>, noRanges: bool, email: bool, phone: bool): (r: seq<RiskReason>)
    ensures GapsRisk in r <==> EmploymentGaps in flags
    ensures OverlapRisk in r <==> OverlappingRoles in flags
    ensures DuplicateRisk in r <==> DuplicateClaims in flags
    ensures ExaggerationRisk in r <==> PotentialExaggeration in flags
    ensures NoExperienceDates in r <==> noRanges
    ensures MissingContact in r <==> !email || !phone
  {
    Opt(EmploymentGaps in flags, GapsRisk)
      + Opt(OverlappingRoles in flags, OverlapRisk)
      + Opt(DuplicateClaims in flags, DuplicateRisk)
      + Opt(PotentialExaggeration in flags, ExaggerationRisk)
      + Opt(noRanges, NoExperienceDates)
      + Opt(!email || !phone, MissingContact)
  }

  function Opt(b: bool, x: RiskReason): (r: seq<RiskReason>)
    ensures x in r <==> b
    ensures |r| <= 1
  {
    if b then [x] else []
  }

  function RiskSum(reasons: seq<RiskReason>): real {
    if reasons == [] then 0.0 else RiskSum(reasons[..|reasons| - 1]) + RiskWeight(reasons[|reasons| - 1])
  }

  lemma {:induction false} RiskSumConcat(a: seq<RiskReason>, b: seq<RiskReason>)
    ensures RiskSum(a + b) == RiskSum(a) + RiskSum(b)
  {
    if b != [] {
      RiskSumConcat(a, b[..|b| - 1]);
      assert (a + b)[..|a + b| - 1] == a + b[..|b| - 1];
    } else {
      assert a + b == a;
    }
  }

  datatype RiskLabel = Low | Medium | High

  function LabelOf(risk: real): (r: RiskLabel)
    ensures r == High <==> risk >= 0.6
    ensures r == Medium <==> 0.3 <= risk < 0.6
    ensures r == Low <==> risk < 0.3
  {
    if risk >= 0.6 then High else if risk >= 0.3 then Medium else Low
  }

  /* ---------- The scored entry ---------- */

  /** One line of `overall_explain`; the `%.3f` formatting is not modelled. */
  datatype ExplainItem =
    | KeywordShare(value: real)
    | SemanticShare(value: real)
    | TrendShare(value: real)
    | CertBonusPart(value: real)
    | EduBonusPart(value: real)
    | ContactBonusPart(value: real)
    | PenaltiesPart(value: real)
    | ConsistencyBonusPart(value: real)
    | Emphasis(tag: JdTag)

  /** An optional explanation line, present only above the 1e-6 threshold. */
  function IfVisible(v: real, item: ExplainItem): (r: seq<ExplainItem>)
    ensures r == [] || r == [item]
    ensures item in r <==> v > 0.000001
  {
    if v > 0.000001 then [item] else []
  }

  function Explain(keyword: real, semantic: real, trend: real, cert: real, edu: real, contact: real,
                   penalty: real, consistencyBonus: real, tags: seq<JdTag>): (r: seq<ExplainItem>)
    ensures 3 <= |r| <= 8 + |tags|
    ensures r[0] == KeywordShare(0.5 * keyword) && r[1] == SemanticShare(0.35 * semantic) && r[2] == TrendShare(0.15 * trend)
    ensures CertBonusPart(cert) in r <==> cert > 0.000001
    ensures EduBonusPart(edu) in r <==> edu > 0.000001
    ensures ContactBonusPart(contact) in r <==> contact > 0.000001
    ensures PenaltiesPart(penalty) in r <==> penalty > 0.000001
    ensures ConsistencyBonusPart(consistencyBonus) in r <==> consistencyBonus > 0.000001
    ensures forall t :: Emphasis(t) in r <==> t in tags
  {
    Shares(keyword, semantic, trend) + ExplainTail(cert, edu, contact, penalty, consistencyBonus, tags)
  }

  /** The three blend lines, each with its weighted share: 0.5, 0.35 and 0.15. */
  function Shares(keyword: real, semantic: real, trend: real): (r: seq<ExplainItem>)
    ensures |r| == 3
    ensures r[0] == KeywordShare(0.5 * keyword) && r[1] == SemanticShare(0.35 * semantic) && r[2] == TrendShare(0.15 * trend)
    ensures forall x :: x in r ==> ExplainRank(x) <= 2
  {
    [KeywordShare(0.5 * keyword), SemanticShare(0.35 * semantic), TrendShare(0.15 * trend)]
  }

  /** The lines after the three shares: the optional lines, then one emphasis line per tag. */
  function ExplainTail(cert: real, edu: real, contact: real, penalty: real, consistencyBonus: real,
                       tags: seq<JdTag>): (r: seq<ExplainItem>)
    ensures |r| <= 5 + |tags|
    ensures forall x :: x in r ==> x.Emphasis? || 3 <= ExplainRank(x) <= 7
    ensures CertBonusPart(cert) in r <==> cert > 0.000001
    ensures EduBonusPart(edu) in r <==> edu > 0.000001
    ensures ContactBonusPart(contact) in r <==> contact > 0.000001
    ensures PenaltiesPart(penalty) in r <==> penalty > 0.000001
    ensures ConsistencyBonusPart(consistencyBonus) in r <==> consistencyBonus > 0.000001
    ensures forall t :: Emphasis(t) in r <==> t in tags
  {
    AdjustmentLines(cert, edu, contact, penalty, consistencyBonus) + EmphasisLines(tags)
  }

  /** The optional lines: one per bonus, penalty or consistency bonus above one millionth. */
  function AdjustmentLines(cert: real, edu: real, contact: real, penalty: real, consistencyBonus: real): (r: seq<ExplainItem>)
    ensures |r| <= 5
    ensures forall x :: x in r ==> 3 <= ExplainRank(x) <= 7
    ensures CertBonusPart(cert) in r <==> cert > 0.000001
    ensures EduBonusPart(edu) in r <==> edu > 0.000001
    ensures ContactBonusPart(contact) in r <==> contact > 0.000001
    ensures PenaltiesPart(penalty) in r <==> penalty > 0.000001
    ensures ConsistencyBonusPart(consistencyBonus) in r <==> consistencyBonus > 0.000001
  {
    IfVisible(cert, CertBonusPart(cert))
      + IfVisible(edu, EduBonusPart(edu))
      + IfVisible(contact, ContactBonusPart(contact))
      + IfVisible(penalty, PenaltiesPart(penalty))
      + IfVisible(consistencyBonus, ConsistencyBonusPart(consistencyBonus))
  }

  /** The position of each kind of line in the explanation's fixed order. */
  function ExplainRank(x: ExplainItem): nat {
    match x
    case KeywordShare(_) => 0
    case SemanticShare(_) => 1
    case TrendShare(_) => 2
    case CertBonusPart(_) => 3
    case EduBonusPart(_) => 4
    case ContactBonusPart(_) => 5
    case PenaltiesPart(_) => 6
    case ConsistencyBonusPart(_) => 7
    case Emphasis(_) => 8
  }

  /** Each line before a non-emphasis line is of an earlier kind: every kind appears at
      most once, in the fixed order, and the emphasis lines come after all the others. */
  predicate InExplainOrder(s: seq<ExplainItem>) {
    forall i, j :: 0 <= i < j < |s| && !s[j].Emphasis? ==> ExplainRank(s[i]) < ExplainRank(s[j])
  }

  lemma InExplainOrderConcat(a: seq<ExplainItem>, b: seq<ExplainItem>)
    requires InExplainOrder(a) && InExplainOrder(b)
    requires forall x, y :: x in a && y in b && !y.Emphasis? ==> ExplainRank(x) < ExplainRank(y)
    ensures InExplainOrder(a + b)
  {
    var s := a + b;
    forall i, j | 0 <= i < j < |s| && !s[j].Emphasis? ensures ExplainRank(s[i]) < ExplainRank(s[j]) {
      if j < |a| {
        assert s[i] == a[i] && s[j] == a[j];
      } else if i < |a| {
        assert s[i] == a[i] && s[j] == b[j - |a|];
        assert a[i] in a && b[j - |a|] in b;
      } else {
        assert s[i] == b[i - |a|] && s[j] == b[j - |a|];
      }
    }
  }

  predicate RanksAtMost(s: seq<ExplainItem>, k: int) {
    forall x :: x in s ==> ExplainRank(x) <= k
  }

  /** Appending a possibly hidden line of a later kind keeps the order. */
  lemma VisibleStep(s: seq<ExplainItem>, v: real, item: ExplainItem)
    requires InExplainOrder(s) && !item.Emphasis? && RanksAtMost(s, ExplainRank(item) - 1)
    ensures InExplainOrder(s + IfVisible(v, item)) && RanksAtMost(s + IfVisible(v, item), ExplainRank(item))
  {
    InExplainOrderConcat(s, IfVisible(v, item));
  }

  /** The optional lines come in the fixed order of their kinds. */
  lemma AdjustmentOrder(cert: real, edu: real, contact: real, penalty: real, consistencyBonus: real)
    ensures InExplainOrder(AdjustmentLines(cert, edu, contact, penalty, consistencyBonus))
  {
    var s1 := [] + IfVisible(cert, CertBonusPart(cert));
    var s2 := s1 + IfVisible(edu, EduBonusPart(edu));
    var s3 := s2 + IfVisible(contact, ContactBonusPart(contact));
    var s4 := s3 + IfVisible(penalty, PenaltiesPart(penalty));
    var s5 := s4 + IfVisible(consistencyBonus, ConsistencyBonusPart(consistencyBonus));
    VisibleStep([], cert, CertBonusPart(cert));
    VisibleStep(s1, edu, EduBonusPart(edu));
    VisibleStep(s2, contact, ContactBonusPart(contact));
    VisibleStep(s3, penalty, PenaltiesPart(penalty));
    VisibleStep(s4, consistencyBonus, ConsistencyBonusPart(consistencyBonus));
    assert s1 == IfVisible(cert, CertBonusPart(cert));
  }

  /** Shares, then optional lines, then emphasis lines, each part in order, make an ordered whole. */
  lemma ThreePartOrder(shares: seq<ExplainItem>, adj: seq<ExplainItem>, em: seq<ExplainItem>)
    requires InExplainOrder(shares) && RanksAtMost(shares, 2)
    requires InExplainOrder(adj) && forall x :: x in adj ==> 3 <= ExplainRank(x) <= 7
    requires forall x :: x in em ==> x.Emphasis?
    ensures InExplainOrder(shares + (adj + em))
  {
    assert InExplainOrder(em);
    InExplainOrderConcat(adj, em);
    InExplainOrderConcat(shares, adj + em);
  }

  /** The explanation lists its lines in the source's order: the three shares, then the
      visible bonuses, penalties and consistency bonus, then one emphasis line per tag. */
  lemma ExplainOrder(keyword: real, semantic: real, trend: real, cert: real, edu: real, contact: real,
                     penalty: real, consistencyBonus: real, tags: seq<JdTag>)
    ensures InExplainOrder(Explain(keyword, semantic, trend, cert, edu, contact, penalty, consistencyBonus, tags))
  {
    var shares := Shares(keyword, semantic, trend);
    assert InExplainOrder(shares);
    AdjustmentOrder(cert, edu, contact, penalty, consistencyBonus);
    ThreePartOrder(shares, AdjustmentLines(cert, edu, contact, penalty, consistencyBonus), EmphasisLines(tags));
  }

  function EmphasisLines(tags: seq<JdTag>): (r: seq<ExplainItem>)
    ensures |r| == |tags|
    ensures forall t :: Emphasis(t) in r <==> t in tags
    ensures forall x :: x in r ==> x.Emphasis?
  {
    if tags == [] then [] else [Emphasis(tags[0])] + EmphasisLines(tags[1..])
  }

  /** The entry `score_candidates` returns: the candidate with the score keys merged in.
      `missingHardSkills` replaces the analysis's own `missing_hard_skills`. */
  datatype Scored = Scored(
    entry: Candidate,
    keywordScore: real,
    semanticScore: real,
    trendScore: real,
    trendSkills: seq<string>,
    overallScore: real,
    hardCoverage: real,
    niceCoverage: real,
    missingHardSkills: seq<string>,
    confidence: real,
    explain: seq<ExplainItem>,
    riskScore: real,
    riskLabel: RiskLabel,
    riskReasons: seq<RiskReason>,
    consistency: real)

  /** The signals of one candidate that do not depend on the trend table. */
  datatype Signals = Signals(
    textLower: string, candSkills: seq<string>, hardCov: real, niceCov: real,
    keyword: real, cert: real, edu: real, contact: real, penalty: real,
    consistency: real, missing: seq<string>)

  function SignalsOf(ctx: JobContext, c: Candidate): Signals {
    var textLower := Lower(TextSource(c));
    var skills := LowerSet(CandidateSkills(c));
    var hardCov := Coverage(|Shown(ctx.hardLower, textLower, skills)|, |ctx.hardLower|);
    var niceCov := Coverage(|Shown(ctx.niceLower, textLower, skills)|, |ctx.niceLower|);
    var contacts := CandidateContacts(c);
    Signals(
      textLower, skills, hardCov, niceCov, KeywordScore(hardCov, niceCov),
      CertBonus(|CandidateCertifications(c)|, ctx.certFocus),
      BonusOf(Highest(CandidateEducation(c))),
      ContactBonus(HasEmail(contacts), HasPhone(contacts), HasLinks(contacts)),
      PenaltySum(CandidateFlags(c)),
      Consistency(|Corroborated(ctx.hardLower, textLower, skills)|, |ctx.hardLower|),
      SortStrings(NotShown(ctx.hardLower, textLower, skills)))
  }

  /** The scored entry of candidate `c` whose semantic similarity is `semantic`. */
  function ScoreOf(ctx: JobContext, table: TrendTable, c: Candidate, semantic: real): Scored {
    var s := SignalsOf(ctx, c);
    var trend := TrendScore(table, s.textLower, s.candSkills);
    var base := BaseOverall(s.keyword, semantic, trend);
    var overall := Overall(base, s.cert, s.edu, s.contact, s.penalty);
    var flags, contacts := CandidateFlags(c), CandidateContacts(c);
    var reasons := RiskReasons(flags, CandidateRanges(c) == [], HasEmail(contacts), HasPhone(contacts));
    var risk := Clamp01(RiskSum(reasons));
    Scored(
      c, s.keyword, semantic, trend, SortStrings(TrendHits(table, s.textLower, s.candSkills)),
      FinalOverall(overall, s.consistency), s.hardCov, s.niceCov, s.missing,
      Confidence(s.keyword, semantic, s.hardCov, s.penalty),
      Explain(s.keyword, semantic, trend, s.cert, s.edu, s.contact, s.penalty,
              ConsistencyBonus(overall, s.consistency), ctx.tags),
      risk, LabelOf(risk), reasons, s.consistency)
  }

  lemma RiskSumSnoc(reasons: seq<RiskReason>, x: RiskReason)
    ensures RiskSum(reasons + [x]) == RiskSum(reasons) + RiskWeight(x)
  {
    assert (reasons + [x])[..|reasons + [x]| - 1] == reasons;
  }

  /** `risk += weight; risk_reasons.append(reason)`, keeping the risk the sum of the reasons' weights. */
  method Add(risk: real, reasons: seq<RiskReason>, x: RiskReason) returns (risk': real, reasons': seq<RiskReason>)
    requires risk == RiskSum(reasons)
    ensures reasons' == reasons + [x]
    ensures risk' == RiskSum(reasons')
  {
    RiskSumSnoc(reasons, x);
    risk', reasons' := risk + RiskWeight(x), reasons + [x];
  }

  /** The risk checks of `score_candidates`: each adds its weight and its reason. */
  method AssessRisk(flags: seq<Flag>, noRanges: bool, email: bool, phone: bool)
    returns (risk: real, reasons: seq<RiskReason>)
    ensures reasons == RiskReasons(flags, noRanges, email, phone)
    ensures risk == Clamp01(RiskSum(reasons))
  {
    ghost var g := Opt(EmploymentGaps in flags, GapsRisk);
    ghost var go := g + Opt(OverlappingRoles in flags, OverlapRisk);
    ghost var god := go + Opt(DuplicateClaims in flags, DuplicateRisk);
    ghost var gode := god + Opt(PotentialExaggeration in flags, ExaggerationRisk);
    ghost var goden := gode + Opt(noRanges, NoExperienceDates);
    reasons := [];
    risk := 0.0;
    if flags != [] {
      if EmploymentGaps in flags {
        risk, reasons := Add(risk, reasons, GapsRisk);
      }
      assert reasons == g;
      if OverlappingRoles in flags {
        risk, reasons := Add(risk, reasons, OverlapRisk);
      }
      assert reasons == go;
      if DuplicateClaims in flags {
        risk, reasons := Add(risk, reasons, DuplicateRisk);
      }
      assert reasons == god;
      if PotentialExaggeration in flags {
        risk, reasons := Add(risk, reasons, ExaggerationRisk);
      }
      assert reasons == gode;
    } else {
      assert gode == [];
    }
    assert reasons == gode;
    if noRanges {
      risk, reasons := Add(risk, reasons, NoExperienceDates);
    }
    assert reasons == goden;
    if !email || !phone {
      risk, reasons := Add(risk, reasons, MissingContact);
    }
    risk := Clamp01(risk);
  }

  /** The contact bonus as `score_candidates` accumulates it, capped at 0.02. */
  method AddContactBonus(hasEmail: bool, hasPhone: bool, hasLinks: bool) returns (contact: real)
    ensures contact == ContactBonus(hasEmail, hasPhone, hasLinks)
  {
    contact := 0.0;
    if hasEmail { contact := contact + 0.007; }
    if hasPhone { contact := contact + 0.007; }
    if hasLinks { contact := contact + 0.006; }
    contact := Min(0.02, contact);
  }

  /** The consistency bonus, lowered so that it never lifts the score above 1. */
  method CapConsistencyBonus(overall: real, consistency: real) returns (bonus: real)
    ensures bonus == ConsistencyBonus(overall, consistency)
  {
    bonus := ConsistencyTier(consistency);
    if overall + bonus > 1.0 {
      bonus := Max(0.0, 1.0 - overall);
    }
  }

  /** The body of the candidate loop of `score_candidates`. */
  method ScoreOne(ctx: JobContext, table: TrendTable, c: Candidate, semantic: real) returns (res: Scored)
    ensures res == ScoreOf(ctx, table, c, semantic)
  {
    var textLower := Lower(TextSource(c));
    var skills := LowerSet(CandidateSkills(c));
    var hardCov := Coverage(|Shown(ctx.hardLower, textLower, skills)|, |ctx.hardLower|);
    var niceCov := Coverage(|Shown(ctx.niceLower, textLower, skills)|, |ctx.niceLower|);
    var keyword := KeywordScore(hardCov, niceCov);
    var trendSkills, trend := DetectTrendSkills(table, textLower, skills);
    var base := BaseOverall(keyword, semantic, trend);
    var cert := CertBonus(|CandidateCertifications(c)|, ctx.certFocus);
    var highest := HighestLevel(CandidateEducation(c));
    var edu := BonusOf(highest);
    var contacts := CandidateContacts(c);
    var hasEmail, hasPhone, hasLinks := HasEmail(contacts), HasPhone(contacts), HasLinks(contacts);
    var contact := AddContactBonus(hasEmail, hasPhone, hasLinks);
    var flags := CandidateFlags(c);
    var penalty := AccumulatePenalty(flags);
    var overall := Overall(base, cert, edu, contact, penalty);
    var missing := SortStrings(NotShown(ctx.hardLower, textLower, skills));
    var consistency := Consistency(|Corroborated(ctx.hardLower, textLower, skills)|, |ctx.hardLower|);
    var bonus := CapConsistencyBonus(overall, consistency);
    var finalOverall := FinalOverall(overall, consistency);
    var confidence := Confidence(keyword, semantic, hardCov, penalty);
    var risk, reasons := AssessRisk(flags, CandidateRanges(c) == [], hasEmail, hasPhone);
    var explain := Explain(keyword, semantic, trend, cert, edu, contact, penalty, bonus, ctx.tags);
    res := Scored(c, keyword, semantic, trend, trendSkills, finalOverall, hardCov, niceCov, missing,
                  confidence, explain, risk, LabelOf(risk), reasons, consistency);
  }

  /** The scorer `score_candidates` applies to each candidate and its semantic score. */
  function ScorerOf(ctx: JobContext, table: TrendTable): (Candidate, real) -> Scored {
    (c: Candidate, semantic: real) => ScoreOf(ctx, table, c, semantic)
  }

  lemma ScorerApply(ctx: JobContext, table: TrendTable, c: Candidate, semantic: real)
    ensures ScorerOf(ctx, table)(c, semantic) == ScoreOf(ctx, table, c, semantic)
  {
  }

  /** The entries in candidate order, before sorting: candidate `i` is scored with
      the `i`-th semantic score, or 0 when there is none. */
  function ScoreAll(cands: seq<Candidate>, semantic: seq<real>, score: (Candidate, real) -> Scored): (r: seq<Scored>)
    ensures |r| == |cands|
  {
    if cands == [] then []
    else
      var n := |cands| - 1;
      ScoreAll(cands[..n], semantic, score) + [score(cands[n], SemanticAt(semantic, n))]
  }

  lemma {:induction false} ScoreAllAt(cands: seq<Candidate>, semantic: seq<real>, score: (Candidate, real) -> Scored)
    ensures forall i :: 0 <= i < |cands| ==>
      ScoreAll(cands, semantic, score)[i] == score(cands[i], SemanticAt(semantic, i))
  {
    if cands != [] {
      var n := |cands| - 1;
      var init := ScoreAll(cands[..n], semantic, score);
      var last := score(cands[n], SemanticAt(semantic, n));
      ScoreAllAt(cands[..n], semantic, score);
      assert ScoreAll(cands, semantic, score) == init + [last];
      forall i | 0 <= i < |cands|
        ensures ScoreAll(cands, semantic, score)[i] == score(cands[i], SemanticAt(semantic, i))
      {
        if i < n {
          assert cands[..n][i] == cands[i];
          assert (init + [last])[i] == init[i];
        } else {
          assert i == n;
          assert (init + [last])[n] == last;
        }
      }
    }
  }

  lemma ScoreAllSnoc(cands: seq<Candidate>, semantic: seq<real>, score: (Candidate, real) -> Scored, i: nat)
    requires i < |cands|
    ensures ScoreAll(cands[..i + 1], semantic, score)
         == ScoreAll(cands[..i], semantic, score) + [score(cands[i], SemanticAt(semantic, i))]
  {
    var pre := cands[..i + 1];
    assert pre[..i] == cands[..i];
    assert |pre| - 1 == i;
    assert pre[i] == cands[i];
  }

  /** The sort key `(overall_score, -len(flags), -len(gaps))` with `reverse=True`:
      `a` may precede `b` when its key is at least as large. */
  predicate RankLe(a: Scored, b: Scored) {
    var fa, fb := |CandidateFlags(a.entry)|, |CandidateFlags(b.entry)|;
    var ga, gb := |CandidateGaps(a.entry)|, |CandidateGaps(b.entry)|;
    || a.overallScore > b.overallScore
    || (a.overallScore == b.overallScore && fa < fb)
    || (a.overallScore == b.overallScore && fa == fb && ga <= gb)
  }

  lemma RankLeIsTotalPreorder()
    ensures TotalPreorder(RankLe)
  {
  }

  /** `score_candidates`: one pass over the candidates, then the stable sort. */
  function Ranked(table: TrendTable, jobText: string, cands: seq<Candidate>, semantic: seq<real>,
                  hardSkills: seq<string>, niceSkills: seq<string>): seq<Scored>
  {
    SortBy(ScoreAll(cands, semantic, ScorerOf(ContextOf(jobText, hardSkills, niceSkills), table)), RankLe)
  }

  /** One pass of the candidate loop: appends the entry for `cands[i]`. */
  method ScoreNext(ctx: JobContext, table: TrendTable, cands: seq<Candidate>, semantic: seq<real>,
                   i: nat, results: seq<Scored>) returns (results': seq<Scored>)
    requires i < |cands|
    requires results == ScoreAll(cands[..i], semantic, ScorerOf(ctx, table))
    ensures results' == ScoreAll(cands[..i + 1], semantic, ScorerOf(ctx, table))
  {
    var sem := SemanticAt(semantic, i);
    var entry := ScoreOne(ctx, table, cands[i], sem);
    ScorerApply(ctx, table, cands[i], sem);
    ScoreAllSnoc(cands, semantic, ScorerOf(ctx, table), i);
    results' := results + [entry];
  }

  method ScoreCandidates(table: TrendTable, jobText: string, cands: seq<Candidate>, semantic: seq<real>,
                         hardSkills: seq<string>, niceSkills: seq<string>) returns (ranked: seq<Scored>)
    ensures ranked == Ranked(table, jobText, cands, semantic, hardSkills, niceSkills)
  {
    var ctx := ContextOf(jobText, hardSkills, niceSkills);
    var results: seq<Scored> := [];
    var i := 0;
    while i < |cands|
      invariant 0 <= i <= |cands|
      invariant results == ScoreAll(cands[..i], semantic, ScorerOf(ctx, table))
    {
      results := ScoreNext(ctx, table, cands, semantic, i, results);
      i := i + 1;
    }
    assert cands[..i] == cands;
    ranked := SortBy(results, RankLe);
  }

  /** The stable sort by `RankLe` orders any list of scored entries by overall score
      descending, then fewer flags, then fewer gaps, keeps its elements, and leaves
      entries of equal key in input order. */
  lemma RankingFacts(scored: seq<Scored>)
    ensures var ranked := SortBy(scored, RankLe);
      && |ranked| == |scored|
      && multiset(ranked) == multiset(scored)
      && (forall i, j :: 0 <= i < j < |ranked| ==> ranked[i].overallScore >= ranked[j].overallScore)
      && (forall i, j :: (0 <= i < j < |ranked| && ranked[i].overallScore == ranked[j].overallScore) ==>
            |CandidateFlags(ranked[i].entry)| <= |CandidateFlags(ranked[j].entry)|)
      && (forall i, j :: (0 <= i < j < |ranked| && ranked[i].overallScore == ranked[j].overallScore
            && |CandidateFlags(ranked[i].entry)| == |CandidateFlags(ranked[j].entry)|) ==>
            |CandidateGaps(ranked[i].entry)| <= |CandidateGaps(ranked[j].entry)|)
      && forall k :: Ties(ranked, k, RankLe) == Ties(scored, k, RankLe)
  {
    RankLeIsTotalPreorder();
    SortByFacts(scored, RankLe);
    var ranked := SortBy(scored, RankLe);
    forall i, j | 0 <= i < j < |ranked| ensures RankLe(ranked[i], ranked[j]) {
    }
  }

  /** `score_candidates` returns one entry per candidate, ranked as `RankingFacts` says. */
  lemma RankedFacts(table: TrendTable, jobText: string, cands: seq<Candidate>, semantic: seq<real>,
                    hardSkills: seq<string>, niceSkills: seq<string>)
    ensures |Ranked(table, jobText, cands, semantic, hardSkills, niceSkills)| == |cands|
    ensures multiset(Ranked(table, jobText, cands, semantic, hardSkills, niceSkills))
         == multiset(ScoreAll(cands, semantic, ScorerOf(ContextOf(jobText, hardSkills, niceSkills), table)))
  {
    RankingFacts(ScoreAll(cands, semantic, ScorerOf(ContextOf(jobText, hardSkills, niceSkills), table)));
  }

  /* ---------- Per-candidate promises ---------- */

  /** The candidate signals: coverages, keyword score and consistency lie in [0, 1], the
      penalty in [0, 0.10]; the missing hard skills are sorted and are exactly the
      lowered hard skills found neither in the lowered text nor among the lowered skills. */
  lemma SignalsFacts(ctx: JobContext, c: Candidate)
    ensures var s := SignalsOf(ctx, c);
      && 0.0 <= s.hardCov <= 1.0 && 0.0 <= s.niceCov <= 1.0 && 0.0 <= s.keyword <= 1.0
      && 0.0 <= s.consistency <= 1.0 && 0.0 <= s.penalty <= 0.10
      && SortedBy(s.missing, StrLe)
      && forall x :: x in s.missing <==> x in ctx.hardLower && !Hit(x, s.textLower, s.candSkills)
  {
    var textLower, skills := Lower(TextSource(c)), LowerSet(CandidateSkills(c));
    ShownSplit(ctx.hardLower, textLower, skills);
    ShownSplit(ctx.niceLower, textLower, skills);
    ShownMembers(ctx.hardLower, textLower, skills);
    SortStringsMembers(NotShown(ctx.hardLower, textLower, skills));
    PenaltyFacts(CandidateFlags(c));
  }

  /** Every score of an entry lies in [0, 1] when the semantic similarity does and the
      trend weights are non-negative; the label follows the 0.3 and 0.6 thresholds; the
      trend skills are exactly the table keys the candidate shows; the risk reasons are
      exactly the ones whose evidence is present. */
  lemma ScoreFacts(ctx: JobContext, table: TrendTable, c: Candidate, semantic: real)
    requires 0.0 <= semantic <= 1.0
    requires NonNegativeWeights(table)
    ensures var r := ScoreOf(ctx, table, c, semantic);
      && r.entry == c && r.semanticScore == semantic
      && 0.0 <= r.keywordScore <= 1.0 && 0.0 <= r.trendScore <= 1.0
      && 0.0 <= r.hardCoverage <= 1.0 && 0.0 <= r.niceCoverage <= 1.0
      && 0.0 <= r.overallScore <= 1.0 && 0.0 <= r.confidence <= 1.0
      && 0.0 <= r.riskScore <= 1.0 && 0.0 <= r.consistency <= 1.0
      && (r.riskLabel == High <==> r.riskScore >= 0.6)
      && (r.riskLabel == Low <==> r.riskScore < 0.3)
      && (forall k :: k in r.trendSkills <==>
            HasKey(table, k) && Hit(k, Lower(TextSource(c)), LowerSet(CandidateSkills(c))))
      && (GapsRisk in r.riskReasons <==> EmploymentGaps in CandidateFlags(c))
      && (NoExperienceDates in r.riskReasons <==> CandidateRanges(c) == [])
      && (MissingContact in r.riskReasons <==> !HasEmail(CandidateContacts(c)) || !HasPhone(CandidateContacts(c)))
  {
    SignalsFacts(ctx, c);
    var s := SignalsOf(ctx, c);
    TrendFacts(table, s.textLower, s.candSkills);
  }

  /** The analysis and the scorer disagree on `missing_hard_skills`: the scorer's list
      is the analysis's list without the skills that occur in the resume text. */
  lemma ScoredMissingNarrowsAnalysis(jobText: string, hardSkills: seq<string>, niceSkills: seq<string>, c: Candidate)
    ensures var s := SignalsOf(ContextOf(jobText, hardSkills, niceSkills), c);
      forall x :: x in s.missing <==>
        x in Analysis.MissingSkills(hardSkills, CandidateSkills(c)) && !IsSubstring(x, Lower(TextSource(c)))
  {
    var ctx := ContextOf(jobText, hardSkills, niceSkills);
    var s := SignalsOf(ctx, c);
    var skills := CandidateSkills(c);
    SignalsFacts(ctx, c);
    var kept := Without(Dedup(LowerAll(hardSkills)), LowerAll(skills));
    SortStringsMembers(kept);
    assert Analysis.MissingSkills(hardSkills, skills) == SortStrings(kept);
    forall x ensures x in s.missing <==> x in SortStrings(kept) && !IsSubstring(x, s.textLower) {
      assert x in ctx.hardLower <==> x in LowerAll(hardSkills);
      assert x in s.candSkills <==> x in LowerAll(skills);
    }
  }

  /** A resume whose text mentions the only hard skill but whose skill list is empty:
      the analysis reports the skill missing, the scorer does not. */
  lemma MissingSkillsDisagree()
    ensures var c := Candidate("cv.pdf", Processed("sql", "",
        ProfileData([], [], [], [], [], Contacts(None, None, [])),
        AnalysisResult([], [], 0.0, None, [], [], [], Contacts(None, None, []), [], [])), None);
      && "sql" in Analysis.MissingSkills(["sql"], CandidateSkills(c))
      && "sql" !in SignalsOf(ContextOf("", ["sql"], []), c).missing
  {
    var c := Candidate("cv.pdf", Processed("sql", "",
        ProfileData([], [], [], [], [], Contacts(None, None, [])),
        AnalysisResult([], [], 0.0, None, [], [], [], Contacts(None, None, []), [], [])), None);
    assert Lower("sql") == "sql" by {
      LowerFacts("sql");
    }
    assert OccursAt("sql", "sql", 0);
    Analysis.MissingSkillsFacts(["sql"], []);
    ScoredMissingNarrowsAnalysis("", ["sql"], [], c);
  }
}
