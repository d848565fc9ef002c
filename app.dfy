/** `app.py`: the two POST routes `/api/process` and `/api/analytics`. Form parsing,
    the 400 answers, the in-memory session buckets, per-file processing with the
    filename de-duplication, the analytics attached to each entry (2-D projection,
    cluster label, top-5 neighbours) and the success score. Text extraction,
    redaction, the TF-IDF vectoriser, PCA and KMeans are foreign: they enter as the
    functions and values of an `Env`. */
module App {
  import opened Seqs
  import opened Sorting
  import opened Text
  import opened Dates
  import opened Intervals
  import opened Records
  import Analysis
  import Nlp
  import Scoring

  /* ---------- Form fields ---------- */

  predicate IsComma(c: char) { c == ',' }

  /** The comprehension `[s.strip() for s in parts if s.strip()]`. */
  function StrippedPieces(parts: seq<string>): (r: seq<string>)
    ensures |r| <= |parts|
  {
    if parts == [] then []
    else
      var s := Strip(parts[0]);
      (if s != "" then [s] else []) + StrippedPieces(parts[1..])
  }

  /** A comma-separated skill field (already stripped); the empty field gives no skills. */
  function SkillList(raw: string): seq<string> {
    if raw == "" then [] else StrippedPieces(SplitBy(raw, IsComma))
  }

  lemma {:induction false} StrippedPiecesMembers(parts: seq<string>)
    ensures forall x :: x in StrippedPieces(parts) <==> x != "" && exists p :: p in parts && x == Strip(p)
  {
    if parts != [] {
      StrippedPiecesMembers(parts[1..]);
      var s := Strip(parts[0]);
      assert StrippedPieces(parts) == (if s != "" then [s] else []) + StrippedPieces(parts[1..]);
      forall x ensures x in StrippedPieces(parts) <==> x != "" && exists p :: p in parts && x == Strip(p) {
        if x != "" && exists p :: p in parts && x == Strip(p) {
          var p :| p in parts && x == Strip(p);
          if p != parts[0] {
            assert p in parts[1..];
          }
        }
      }
    }
  }

  /** Every parsed skill is non-empty, carries no surrounding whitespace and no comma,
      and the skills are exactly the non-empty stripped comma-separated pieces. */
  lemma SkillListFacts(raw: string)
    ensures forall x :: x in SkillList(raw) ==> x != "" && Stripped(x) && forall c :: c in x ==> c != ','
    ensures forall x :: x in SkillList(raw) <==> x != "" && exists p :: p in SplitBy(raw, IsComma) && x == Strip(p)
  {
    var parts := SplitBy(raw, IsComma);
    if raw == "" {
      assert parts == [""];
      assert Strip("") == "";
    } else {
      assert SkillList(raw) == StrippedPieces(parts);
      StrippedPiecesMembers(parts);
      forall x | x in SkillList(raw) ensures x != "" && Stripped(x) && forall c :: c in x ==> c != ',' {
        var p :| p in parts && x == Strip(p);
        StripFacts(p);
        StripChars(p);
      }
    }
  }

  /** The form fields both routes read; an absent field reads as "". */
  datatype Form = Form(jobDescription: string, hardSkills: string, niceSkills: string, sessionId: string)

  /** The request after stripping: job text, the two skill lists, the session id. */
  datatype Request = Request(jobText: string, hardSkills: seq<string>, niceSkills: seq<string>, sessionId: string)

  function RequestOf(form: Form): (q: Request)
    ensures Stripped(q.jobText) && Stripped(q.sessionId)
  {
    StripFacts(form.jobDescription);
    StripFacts(form.sessionId);
    Request(Strip(form.jobDescription), SkillList(Strip(form.hardSkills)),
            SkillList(Strip(form.niceSkills)), Strip(form.sessionId))
  }

  /* ---------- The 400 answers ---------- */

  datatype Rejection = JobDescriptionRequired | ResumeRequired

  function Message(r: Rejection): string {
    match r
    case JobDescriptionRequired => "Job description is required"
    case ResumeRequired => "Please upload at least one resume"
  }

  /** Both routes refuse an empty job description first, then a request with neither
      files nor a session id. */
  function Validate(jobText: string, fileCount: nat, sessionId: string): (r: Option<Rejection>)
    ensures r == None <==> jobText != "" && (fileCount > 0 || sessionId != "")
    ensures r == Some(JobDescriptionRequired) <==> jobText == ""
    ensures r == Some(ResumeRequired) <==> jobText != "" && fileCount == 0 && sessionId == ""
  {
    if jobText == "" then Some(JobDescriptionRequired)
    else if fileCount == 0 && sessionId == "" then Some(ResumeRequired)
    else None
  }

  /* ---------- Session buckets ---------- */

  /** One `SESSIONS` entry: the context it was accumulated for and its candidates. */
  datatype Bucket = Bucket(jobText: string, hardSkills: seq<string>, niceSkills: seq<string>, candidates: seq<Candidate>)

  predicate SameContext(b: Bucket, jobText: string, hard: seq<string>, nice: seq<string>) {
    b.jobText == jobText && b.hardSkills == hard && b.niceSkills == nice
  }

  function Find(sessions: map<string, Bucket>, id: string): Option<Bucket> {
    if id in sessions then Some(sessions[id]) else None
  }

  /** The bucket after a request: a missing bucket is created empty, one whose job
      text or either skill list differs is reset to the new context with no
      candidates, and one with the same context is kept as it is. */
  function PreparedBucket(existing: Option<Bucket>, jobText: string, hard: seq<string>, nice: seq<string>): (b: Bucket)
    ensures SameContext(b, jobText, hard, nice)
    ensures b.candidates == if existing.Some? && SameContext(existing.value, jobText, hard, nice)
                            then existing.value.candidates else []
  {
    match existing
    case None => Bucket(jobText, hard, nice, [])
    case Some(b) => if SameContext(b, jobText, hard, nice) then b else Bucket(jobText, hard, nice, [])
  }

  /** The candidates a request starts from: none without a session id. */
  function Start(sessions: map<string, Bucket>, id: string, jobText: string, hard: seq<string>, nice: seq<string>): seq<Candidate> {
    if id == "" then [] else PreparedBucket(Find(sessions, id), jobText, hard, nice).candidates
  }

  /** The sessions after a request that ended with `cands`. */
  function Stored(sessions: map<string, Bucket>, id: string, jobText: string, hard: seq<string>, nice: seq<string>,
                  cands: seq<Candidate>): map<string, Bucket>
  {
    if id == "" then sessions
    else sessions[id := PreparedBucket(Find(sessions, id), jobText, hard, nice).(candidates := cands)]
  }

  /** A later request with the same context starts from what the earlier one stored;
      a request whose job text or either skill list differs starts empty. */
  lemma {:induction false} AccumulationFacts(sessions: map<string, Bucket>, id: string, jobText: string,
                                             hard: seq<string>, nice: seq<string>, cands: seq<Candidate>,
                                             jobText': string, hard': seq<string>, nice': seq<string>)
    requires id != ""
    ensures var after := Stored(sessions, id, jobText, hard, nice, cands);
      && Start(after, id, jobText, hard, nice) == cands
      && ((jobText', hard', nice') != (jobText, hard, nice) ==> Start(after, id, jobText', hard', nice') == [])
      && forall other :: other != id ==> Find(after, other) == Find(sessions, other)
  {
    var after := Stored(sessions, id, jobText, hard, nice, cands);
    assert Find(after, id) == Some(PreparedBucket(Find(sessions, id), jobText, hard, nice).(candidates := cands));
  }

  /** The process-wide `SESSIONS` dictionary. */
  class SessionStore {
    var buckets: map<string, Bucket>

    constructor ()
      ensures buckets == map[]
    {
      buckets := map[];
    }

    /** Gets, creates or resets the bucket of a session; returns (a copy of) its candidates. */
    method Prepare(id: string, jobText: string, hard: seq<string>, nice: seq<string>) returns (cands: seq<Candidate>)
      modifies this
      ensures buckets == old(buckets)[id := PreparedBucket(Find(old(buckets), id), jobText, hard, nice)]
      ensures cands == buckets[id].candidates
    {
      if id !in buckets {
        buckets := buckets[id := Bucket(jobText, hard, nice, [])];
      } else if !SameContext(buckets[id], jobText, hard, nice) {
        buckets := buckets[id := Bucket(jobText, hard, nice, [])];
      } else {
        assert buckets == buckets[id := buckets[id]];
      }
      cands := buckets[id].candidates;
    }

    /** `bucket['candidates'] = candidates`. */
    method Persist(id: string, cands: seq<Candidate>)
      requires id in buckets
      modifies this
      ensures buckets == old(buckets)[id := old(buckets)[id].(candidates := cands)]
    {
      buckets := buckets[id := buckets[id].(candidates := cands)];
    }
  }

  /* ---------- Processing uploaded files ---------- */

  /** What `extract_text_from_file` gave for one uploaded file: its text, or the
      message of the exception it raised. */
  datatype Upload = Upload(filename: string, extracted: Result<string, string>)

  /** What the TF-IDF matrix of one request yields: its number of columns, the PCA
      projection, the KMeans labels for a cluster count, and the cosine-similarity
      matrix; `None` where the library raised. */
  datatype Vectors = Vectors(
    dims: nat,
    projection: Option<seq<(real, real)>>,
    clusters: nat -> Option<seq<int>>,
    similarity: Option<seq<seq<real>>>)

  /** The foreign services and the loaded configuration. `semantic` is the cosine
      similarity of the job (first document) to each candidate inside
      `score_candidates`; `vectorize` is `VECT.fit_transform`, `None` when it raised. */
  datatype Env = Env(
    redact: string -> string,
    taxonomy: set<string>,
    nlp: Nlp.NlpPatterns,
    pats: Analysis.Patterns,
    parse: Parser,
    now: DateTime,
    table: Scoring.TrendTable,
    semantic: seq<string> -> seq<real>,
    vectorize: seq<string> -> Option<Vectors>)

  const MaxText: nat := 20000

  function Initial(raw: RawProfile): ProfileData {
    ProfileData(raw.skills, raw.education, raw.experienceRanges, [], [], Contacts(None, None, []))
  }

  /** The entry built for one upload: the error entry when extraction raised, else
      the truncated texts, the enriched profile and its analysis. */
  function EntryOf(env: Env, jobText: string, hard: seq<string>, u: Upload): (c: Candidate)
    ensures c.filename == u.filename && c.attached == None
    ensures c.body.Failed? <==> u.extracted.Err?
    ensures c.body.Processed? ==> |c.body.rawText| <= MaxText && |c.body.rawTextRedacted| <= MaxText
  {
    match u.extracted
    case Err(msg) => Candidate(u.filename, Failed(msg), None)
    case Ok(text) =>
      var red := env.redact(text);
      var p := Analysis.Enriched(Initial(Nlp.ProfileOf(red, env.taxonomy, env.nlp)), red, env.pats);
      Candidate(u.filename, Processed(Take(text, MaxText), Take(red, MaxText), p,
                Analysis.Analyze(p, jobText, hard, red, env.pats, env.parse, env.now)), None)
  }

  method BuildEntry(env: Env, jobText: string, hard: seq<string>, u: Upload) returns (e: Candidate)
    ensures e == EntryOf(env, jobText, hard, u)
  {
    match u.extracted {
      case Err(msg) =>
        e := Candidate(u.filename, Failed(msg), None);
      case Ok(text) =>
        var red := env.redact(text);
        var raw := Nlp.ExtractProfile(red, env.taxonomy, env.nlp);
        var profile := new Analysis.Profile(raw);
        var analysis := Analysis.AnalyzeProfileVsJob(profile, jobText, hard, red, env.pats, env.parse, env.now);
        e := Candidate(u.filename, Processed(Take(text, MaxText), Take(red, MaxText), profile.Data(), analysis), None);
    }
  }

  /** The index of the first entry named `name`, or `|cands|` when there is none. */
  function FirstNamed(cands: seq<Candidate>, name: string): (k: nat)
    ensures k <= |cands|
    ensures k < |cands| ==> cands[k].filename == name
    ensures forall j :: 0 <= j < k ==> cands[j].filename != name
  {
    if cands == [] then 0
    else if cands[0].filename == name then 0
    else 1 + FirstNamed(cands[1..], name)
  }

  /** The list after a processed file: its entry replaces the first one with the same
      filename, or is appended. */
  function Upserted(cands: seq<Candidate>, e: Candidate): (r: seq<Candidate>)
    ensures |cands| <= |r| <= |cands| + 1
  {
    var k := FirstNamed(cands, e.filename);
    if k < |cands| then cands[k := e] else cands + [e]
  }

  method ReplaceOrAppend(cands: seq<Candidate>, e: Candidate) returns (cands': seq<Candidate>)
    ensures cands' == Upserted(cands, e)
  {
    cands' := cands;
    var i := 0;
    while i < |cands'|
      invariant 0 <= i <= |cands|
      invariant cands' == cands
      invariant forall j :: 0 <= j < i ==> cands[j].filename != e.filename
    {
      if cands'[i].filename == e.filename {
        cands' := cands'[i := e];
        return;
      }
      i := i + 1;
    }
    cands' := cands' + [e];
  }

  predicate DistinctNames(cands: seq<Candidate>) {
    forall i, j :: 0 <= i < j < |cands| ==> cands[i].filename != cands[j].filename
  }

  /** Replacing or appending grows the list by at most one; the length stays the same
      exactly when an entry with that filename exists; the new entry is in the list,
      every other entry stays in place, and distinct filenames stay distinct. */
  lemma UpsertedFacts(cands: seq<Candidate>, e: Candidate)
    ensures var r := Upserted(cands, e);
      && (|r| == |cands| <==> exists j :: 0 <= j < |cands| && cands[j].filename == e.filename)
      && r[FirstNamed(cands, e.filename)] == e
      && (forall j :: 0 <= j < |cands| && j != FirstNamed(cands, e.filename) ==> r[j] == cands[j])
      && (forall j :: 0 <= j < |cands| && cands[j].filename != e.filename ==> r[j] == cands[j])
      && (DistinctNames(cands) ==> DistinctNames(r))
  {
  }

  /** The list after the uploads: errors are appended, processed entries upserted. */
  function AfterUploads(start: seq<Candidate>, uploads: seq<Upload>, entry: Upload -> Candidate): (r: seq<Candidate>)
    ensures |start| <= |r| <= |start| + |uploads|
  {
    if uploads == [] then start
    else
      var prev := AfterUploads(start, uploads[..|uploads| - 1], entry);
      var u := uploads[|uploads| - 1];
      if u.extracted.Err? then prev + [entry(u)] else Upserted(prev, entry(u))
  }

  function EntryFn(env: Env, jobText: string, hard: seq<string>): Upload -> Candidate {
    u => EntryOf(env, jobText, hard, u)
  }

  lemma EntryFnApply(env: Env, jobText: string, hard: seq<string>, u: Upload)
    ensures EntryFn(env, jobText, hard)(u) == EntryOf(env, jobText, hard, u)
  {
  }

  lemma AfterUploadsSnoc(start: seq<Candidate>, uploads: seq<Upload>, entry: Upload -> Candidate, i: nat)
    requires i < |uploads|
    ensures var prev := AfterUploads(start, uploads[..i], entry);
      AfterUploads(start, uploads[..i + 1], entry)
        == if uploads[i].extracted.Err? then prev + [entry(uploads[i])] else Upserted(prev, entry(uploads[i]))
  {
    var pre := uploads[..i + 1];
    assert pre[..i] == uploads[..i];
  }

  /** Every upload leaves an entry under its filename; an error entry is always
      appended at the end; and a starting entry whose filename no processed upload
      carries is kept in place. */
  lemma {:induction false} AfterUploadsFacts(start: seq<Candidate>, uploads: seq<Upload>, entry: Upload -> Candidate)
    requires forall u :: entry(u).filename == u.filename
    ensures var r := AfterUploads(start, uploads, entry);
      && (forall u :: u in uploads ==> exists c :: c in r && c.filename == u.filename)
      && (uploads != [] && uploads[|uploads| - 1].extracted.Err? ==> r[|r| - 1] == entry(uploads[|uploads| - 1]))
      && forall j :: 0 <= j < |start| && (forall u :: u in uploads && u.extracted.Ok? ==> u.filename != start[j].filename)
           ==> r[j] == start[j]
  {
    if uploads != [] {
      var n := |uploads| - 1;
      var init := uploads[..n];
      var u := uploads[n];
      AfterUploadsFacts(start, init, entry);
      var prev := AfterUploads(start, init, entry);
      var r := AfterUploads(start, uploads, entry);
      UpsertedFacts(prev, entry(u));
      assert u.extracted.Ok? ==> r == Upserted(prev, entry(u));
      assert entry(u) in r;
      forall v | v in uploads ensures exists c :: c in r && c.filename == v.filename {
        if v != u {
          assert v in init;
          var c :| c in prev && c.filename == v.filename;
          var k :| 0 <= k < |prev| && prev[k] == c;
          if u.extracted.Err? {
            assert r[k] == c;
          } else if r[k] != c {
            assert k == FirstNamed(prev, u.filename);
            assert r[k] == entry(u);
          } else {
            assert r[k] == c;
          }
        }
      }
      forall j | 0 <= j < |start| && (forall v :: v in uploads && v.extracted.Ok? ==> v.filename != start[j].filename)
        ensures r[j] == start[j]
      {
        assert forall v :: v in init ==> v in uploads;
        assert prev[j] == start[j];
      }
    }
  }

  /** One pass of the file loop. */
  method ProcessUpload(env: Env, jobText: string, hard: seq<string>, start: seq<Candidate>,
                       uploads: seq<Upload>, i: nat, cands: seq<Candidate>) returns (cands': seq<Candidate>)
    requires i < |uploads|
    requires cands == AfterUploads(start, uploads[..i], EntryFn(env, jobText, hard))
    ensures cands' == AfterUploads(start, uploads[..i + 1], EntryFn(env, jobText, hard))
  {
    var e := BuildEntry(env, jobText, hard, uploads[i]);
    EntryFnApply(env, jobText, hard, uploads[i]);
    AfterUploadsSnoc(start, uploads, EntryFn(env, jobText, hard), i);
    if uploads[i].extracted.Err? {
      cands' := cands + [e];
    } else {
      cands' := ReplaceOrAppend(cands, e);
    }
  }

  method ProcessUploads(env: Env, jobText: string, hard: seq<string>, start: seq<Candidate>,
                        uploads: seq<Upload>) returns (cands: seq<Candidate>)
    ensures cands == AfterUploads(start, uploads, EntryFn(env, jobText, hard))
  {
    cands := start;
    var i := 0;
    while i < |uploads|
      invariant 0 <= i <= |uploads|
      invariant cands == AfterUploads(start, uploads[..i], EntryFn(env, jobText, hard))
    {
      cands := ProcessUpload(env, jobText, hard, start, uploads, i, cands);
      i := i + 1;
    }
    assert uploads[..i] == uploads;
  }

  /** The documents handed to the vectoriser: each entry's redacted text, or raw text. */
  function Sources(cands: seq<Candidate>): (r: seq<string>)
    ensures |r| == |cands|
  {
    if cands == [] then [] else [TextSource(cands[0])] + Sources(cands[1..])
  }

  function Names(cands: seq<Candidate>): (r: seq<string>)
    ensures |r| == |cands|
  {
    if cands == [] then [] else [cands[0].filename] + Names(cands[1..])
  }

  /* ---------- Analytics: projection and clusters ---------- */

  /** `round(n ** 0.5)`: the least `r` with `n <= r*r + r`, searched from `r`. */
  function RootFrom(n: nat, r: nat): (k: nat)
    requires r == 0 || r * r - r < n
    ensures n <= k * k + k
    ensures k == 0 || k * k - k < n
    decreases n - r
  {
    if n <= r * r + r then r
    else
      assert (r + 1) * (r + 1) - (r + 1) == r * r + r;
      RootFrom(n, r + 1)
  }

  /** The integer nearest to the square root of `n` (never a tie for integer `n`). */
  function RoundSqrt(n: nat): (k: nat)
    ensures n <= k * k + k
    ensures k == 0 || k * k - k < n
  {
    RootFrom(n, 0)
  }

  /** `RoundSqrt(n)` is within one half of the real square root. */
  lemma RoundSqrtNearest(n: nat)
    requires n > 0
    ensures var k := RoundSqrt(n) as real;
      (k - 0.5) * (k - 0.5) < n as real < (k + 0.5) * (k + 0.5)
  {
    var k := RoundSqrt(n);
    assert k * k - k + 1 <= n;
    assert (k as real - 0.5) * (k as real - 0.5) == (k * k - k) as real + 0.25;
    assert (k as real + 0.5) * (k as real + 0.5) == (k * k + k) as real + 0.25;
  }

  /** `min(min(6, max(2, round(sqrt n))), n)`: for two or more points the rounded root
      clamped to 2..6, the final `min` with `n` never applying since the root is below `n`. */
  function ClusterCount(n: nat): (k: nat)
    ensures n >= 2 ==> 2 <= k <= 6 && k <= n
    ensures n >= 2 ==> k == (if RoundSqrt(n) < 2 then 2 else if 6 < RoundSqrt(n) then 6 else RoundSqrt(n))
    ensures n < 2 ==> k == n
  {
    var r := RoundSqrt(n);
    assert r >= 2 ==> r < n by {
      if r >= 2 {
        assert r * r - r == r * (r - 1) >= r;
      }
    }
    var k := if 6 < (if r < 2 then 2 else r) then 6 else (if r < 2 then 2 else r);
    if n < k then n else k
  }

  function Coords(n: nat, vec: Option<Vectors>): seq<(real, real)> {
    if vec.Some? && n >= 2 && vec.value.dims >= 2 && vec.value.projection.Some?
    then vec.value.projection.value
    else seq(n, _ => (0.0, 0.0))
  }

  function Labels(n: nat, vec: Option<Vectors>): seq<int> {
    if vec.Some? && n >= 2 && vec.value.clusters(ClusterCount(n)).Some?
    then vec.value.clusters(ClusterCount(n)).value
    else seq(n, _ => 0)
  }

  /* ---------- Analytics: nearest neighbours ---------- */

  /** The sort key of `scores.sort(key=lambda t: t[1], reverse=True)`. */
  predicate SimGe(a: (nat, real), b: (nat, real)) { a.1 >= b.1 }

  lemma SimGeIsTotalPreorder()
    ensures TotalPreorder(SimGe)
  {
  }

  /** `[(j, sim[i, j]) for j in range(m) if j != i]`. */
  function OtherScores(row: seq<real>, m: nat, i: nat): (r: seq<(nat, real)>)
    requires m <= |row|
    ensures |r| == if i < m then m - 1 else m
  {
    if m == 0 then []
    else OtherScores(row, m - 1, i) + (if m - 1 != i then [(m - 1, row[m - 1])] else [])
  }

  lemma {:induction false} OtherScoresMembers(row: seq<real>, m: nat, i: nat)
    requires m <= |row|
    ensures forall p :: p in OtherScores(row, m, i) <==> p.0 < m && p.0 != i && p.1 == row[p.0]
  {
    if m > 0 {
      OtherScoresMembers(row, m - 1, i);
    }
  }

  /** The five most similar other entries, most similar first, ties in index order. */
  function TopPairs(row: seq<real>, m: nat, i: nat): seq<(nat, real)>
    requires m <= |row|
  {
    Take(SortBy(OtherScores(row, m, i), SimGe), 5)
  }

  function NamedNeighbors(names: seq<string>, pairs: seq<(nat, real)>): (r: seq<Neighbor>)
    ensures |r| == |pairs|
  {
    if pairs == [] then []
    else [Neighbor(if pairs[0].0 < |names| then names[pairs[0].0] else "", pairs[0].1)]
         + NamedNeighbors(names, pairs[1..])
  }

  lemma {:induction false} NamedNeighborsAt(names: seq<string>, pairs: seq<(nat, real)>, k: nat)
    requires k < |pairs| && pairs[k].0 < |names|
    ensures NamedNeighbors(names, pairs)[k] == Neighbor(names[pairs[k].0], pairs[k].1)
  {
    if k > 0 {
      NamedNeighborsAt(names, pairs[1..], k - 1);
    }
  }

  /** Python indexes `sim[i, j]` for all `i, j < n` without an IndexError. */
  predicate Covers(sim: seq<seq<real>>, n: nat) {
    |sim| >= n && forall i :: 0 <= i < n ==> |sim[i]| >= n
  }

  function TopNeighbors(names: seq<string>, sim: seq<seq<real>>, i: nat): seq<Neighbor> {
    if i < |sim| && |names| <= |sim[i]| then NamedNeighbors(names, TopPairs(sim[i], |names|, i)) else []
  }

  function NeighborsAll(names: seq<string>, vec: Option<Vectors>): (r: seq<seq<Neighbor>>)
    ensures |r| == |names|
  {
    var n := |names|;
    if vec.Some? && n >= 2 && vec.value.similarity.Some? && Covers(vec.value.similarity.value, n)
    then seq(n, i requires 0 <= i < n => TopNeighbors(names, vec.value.similarity.value, i))
    else seq(n, _ => [])
  }

  /** `neighbors_all`, filled row by row; an IndexError resets every row to []. */
  method NearestNeighbors(names: seq<string>, vec: Option<Vectors>) returns (nbs: seq<seq<Neighbor>>)
    ensures nbs == NeighborsAll(names, vec)
  {
    var n := |names|;
    var all := new seq<Neighbor>[n](_ => []);
    if vec.Some? && n >= 2 && vec.value.similarity.Some? && Covers(vec.value.similarity.value, n) {
      var sim := vec.value.similarity.value;
      for i := 0 to n
        invariant forall j :: 0 <= j < i ==> all[j] == TopNeighbors(names, sim, j)
      {
        all[i] := NamedNeighbors(names, TopPairs(sim[i], n, i));
      }
    }
    nbs := all[..];
  }

  lemma TopPairsMembers(row: seq<real>, n: nat, i: nat)
    requires i < n <= |row|
    ensures var top := TopPairs(row, n, i);
      forall k :: 0 <= k < |top| ==> top[k].0 < n && top[k].0 != i && top[k].1 == row[top[k].0]
  {
    var others := OtherScores(row, n, i);
    var sorted := SortBy(others, SimGe);
    var top := TopPairs(row, n, i);
    OtherScoresMembers(row, n, i);
    forall k | 0 <= k < |top| ensures top[k].0 < n && top[k].0 != i && top[k].1 == row[top[k].0] {
      assert top[k] == sorted[k];
      assert sorted[k] in multiset(sorted);
      assert sorted[k] in others;
    }
  }

  lemma TopPairsBest(row: seq<real>, n: nat, i: nat, j: nat)
    requires i < n <= |row| && j < n && j != i
    requires forall k :: 0 <= k < |TopPairs(row, n, i)| ==> TopPairs(row, n, i)[k].0 != j
    ensures forall k :: 0 <= k < |TopPairs(row, n, i)| ==> TopPairs(row, n, i)[k].1 >= row[j]
  {
    var others := OtherScores(row, n, i);
    var sorted := SortBy(others, SimGe);
    var top := TopPairs(row, n, i);
    SimGeIsTotalPreorder();
    SortBySorted(others, SimGe);
    OtherScoresMembers(row, n, i);
    var p := (j, row[j]);
    assert p in others;
    assert p in multiset(sorted);
    var m :| 0 <= m < |sorted| && sorted[m] == p;
    if m < |top| {
      assert false;
    }
    forall k | 0 <= k < |top| ensures top[k].1 >= row[j] {
      assert top[k] == sorted[k];
      assert SimGe(sorted[k], sorted[m]);
    }
  }

  /** The neighbour list of entry `i` has `min(5, n-1)` entries, most similar first;
      each is another entry with its similarity to `i`; and no entry left out is more
      similar than any entry kept. */
  lemma TopPairsFacts(row: seq<real>, n: nat, i: nat)
    requires i < n <= |row|
    ensures var top := TopPairs(row, n, i);
      && |top| == (if n - 1 < 5 then n - 1 else 5)
      && (forall k :: 0 <= k < |top| ==> top[k].0 < n && top[k].0 != i && top[k].1 == row[top[k].0])
      && (forall a, b :: 0 <= a < b < |top| ==> top[a].1 >= top[b].1)
      && forall j :: 0 <= j < n && j != i && (forall k :: 0 <= k < |top| ==> top[k].0 != j) ==>
           forall k :: 0 <= k < |top| ==> top[k].1 >= row[j]
  {
    var others := OtherScores(row, n, i);
    var sorted := SortBy(others, SimGe);
    var top := TopPairs(row, n, i);
    SimGeIsTotalPreorder();
    SortBySorted(others, SimGe);
    TopPairsMembers(row, n, i);
    forall a, b | 0 <= a < b < |top| ensures top[a].1 >= top[b].1 {
      assert top[a] == sorted[a] && top[b] == sorted[b];
      assert SimGe(sorted[a], sorted[b]);
    }
    forall j | 0 <= j < n && j != i && (forall k :: 0 <= k < |top| ==> top[k].0 != j)
      ensures forall k :: 0 <= k < |top| ==> top[k].1 >= row[j]
    {
      TopPairsBest(row, n, i, j);
    }
  }

  /** Each neighbour entry names the filename of the entry it was computed from. */
  lemma TopNeighborsFacts(names: seq<string>, sim: seq<seq<real>>, i: nat)
    requires i < |names| && Covers(sim, |names|)
    ensures var top := TopPairs(sim[i], |names|, i);
      && |TopNeighbors(names, sim, i)| == (if |names| - 1 < 5 then |names| - 1 else 5)
      && forall k :: 0 <= k < |top| ==>
           top[k].0 < |names| && top[k].0 != i && TopNeighbors(names, sim, i)[k] == Neighbor(names[top[k].0], top[k].1)
  {
    var top := TopPairs(sim[i], |names|, i);
    TopPairsFacts(sim[i], |names|, i);
    forall k | 0 <= k < |top| ensures TopNeighbors(names, sim, i)[k] == Neighbor(names[top[k].0], top[k].1) {
      NamedNeighborsAt(names, top, k);
    }
  }

  /* ---------- Analytics: attaching ---------- */

  function AttachedAt(i: nat, coords: seq<(real, real)>, labels: seq<int>, nbs: seq<seq<Neighbor>>): Attached {
    Attached(if i < |coords| then coords[i] else (0.0, 0.0),
             if i < |labels| then labels[i] else 0,
             if i < |nbs| then nbs[i] else [])
  }

  function AttachAll(cands: seq<Candidate>, coords: seq<(real, real)>, labels: seq<int>,
                     nbs: seq<seq<Neighbor>>): (r: seq<Candidate>)
    ensures |r| == |cands|
  {
    seq(|cands|, i requires 0 <= i < |cands| => cands[i].(attached := Some(AttachedAt(i, coords, labels, nbs))))
  }

  method AttachAnalytics(cands: seq<Candidate>, coords: seq<(real, real)>, labels: seq<int>,
                         nbs: seq<seq<Neighbor>>) returns (cands': seq<Candidate>)
    ensures cands' == AttachAll(cands, coords, labels, nbs)
  {
    cands' := cands;
    for i := 0 to |cands|
      invariant |cands'| == |cands|
      invariant forall j :: 0 <= j < i ==> cands'[j] == cands[j].(attached := Some(AttachedAt(j, coords, labels, nbs)))
      invariant forall j :: i <= j < |cands| ==> cands'[j] == cands[j]
    {
      cands' := cands'[i := cands'[i].(attached := Some(AttachedAt(i, coords, labels, nbs)))];
    }
  }

  /** With fewer than two entries, or when vectorising raised, every entry gets the
      default analytics: projection (0, 0), cluster 0 and no neighbours. */
  lemma DefaultAnalytics(cands: seq<Candidate>, vec: Option<Vectors>)
    requires |cands| < 2 || vec.None?
    ensures var n := |cands|;
      forall i :: 0 <= i < n ==>
        AttachAll(cands, Coords(n, vec), Labels(n, vec), NeighborsAll(Names(cands), vec))[i]
          == cands[i].(attached := Some(Attached((0.0, 0.0), 0, [])))
  {
  }

  /** Every attached neighbour list has `min(5, n-1)` entries when the similarity
      matrix is available, and none otherwise. */
  lemma NeighborCounts(names: seq<string>, vec: Option<Vectors>, i: nat)
    requires i < |names|
    ensures var nbs := NeighborsAll(names, vec);
      if vec.Some? && |names| >= 2 && vec.value.similarity.Some? && Covers(vec.value.similarity.value, |names|)
      then |nbs[i]| == (if |names| - 1 < 5 then |names| - 1 else 5)
      else nbs[i] == []
  {
    if vec.Some? && |names| >= 2 && vec.value.similarity.Some? && Covers(vec.value.similarity.value, |names|) {
      TopNeighborsFacts(names, vec.value.similarity.value, i);
    }
  }

  /* ---------- Success score ---------- */

  /** The penalty terms: 0.30 for gaps, 0.20 for overlaps, 0.20 for exaggeration. */
  function PenaltyIndicator(c: Candidate): (r: real)
    ensures 0.0 <= r <= 0.70
    ensures r == 0.0 <==> CandidateGaps(c) == [] && CandidateOverlaps(c) == [] && PotentialExaggeration !in CandidateFlags(c)
  {
    (if CandidateGaps(c) != [] then 0.30 else 0.0)
    + (if CandidateOverlaps(c) != [] then 0.20 else 0.0)
    + (if PotentialExaggeration in CandidateFlags(c) then 0.20 else 0.0)
  }

  function SuccessRaw(s: Scoring.Scored): real {
    0.55 * s.overallScore + 0.15 * s.trendScore + 0.15 * s.hardCoverage + 0.10 * s.semanticScore
  }

  function SuccessScore(s: Scoring.Scored): (r: real)
    ensures 0.0 <= r <= 1.0
  {
    Clamp01(SuccessRaw(s) - 0.05 * PenaltyIndicator(s.entry))
  }

  /** With every blended score in [0, 1] the success score never reaches 1 (at most
      0.95), the penalties lower it by at most 0.035, and it rises with the overall score. */
  lemma SuccessFacts(s: Scoring.Scored, overall': real)
    requires 0.0 <= s.overallScore <= overall' <= 1.0
    requires 0.0 <= s.trendScore <= 1.0 && 0.0 <= s.hardCoverage <= 1.0 && 0.0 <= s.semanticScore <= 1.0
    ensures SuccessScore(s) <= 0.95
    ensures SuccessRaw(s) - 0.035 <= SuccessScore(s) <= SuccessRaw(s)
    ensures SuccessScore(s) <= SuccessScore(s.(overallScore := overall'))
  {
  }

  datatype Assessed = Assessed(result: Scoring.Scored, success: real)

  function SuccessAll(ranked: seq<Scoring.Scored>): (r: seq<Assessed>)
    ensures |r| == |ranked|
  {
    seq(|ranked|, i requires 0 <= i < |ranked| => Assessed(ranked[i], SuccessScore(ranked[i])))
  }

  method AddSuccessScores(ranked: seq<Scoring.Scored>) returns (out: seq<Assessed>)
    ensures out == SuccessAll(ranked)
  {
    out := [];
    for i := 0 to |ranked|
      invariant out == SuccessAll(ranked[..i])
    {
      out := out + [Assessed(ranked[i], SuccessScore(ranked[i]))];
    }
    assert ranked[..|ranked|] == ranked;
  }

  /* ---------- The routes ---------- */

  datatype Response =
    | BadRequest(rejection: Rejection)
    | Ranking(ranked: seq<Scoring.Scored>)
    | Assessment(results: seq<Assessed>)

  /** The bucket step and the file loop shared by both routes. */
  method Accumulate(store: SessionStore, id: string, jobText: string, hard: seq<string>, nice: seq<string>,
                    uploads: seq<Upload>, env: Env) returns (cands: seq<Candidate>)
    modifies store
    ensures cands == AfterUploads(Start(old(store.buckets), id, jobText, hard, nice), uploads, EntryFn(env, jobText, hard))
    ensures id != "" ==> store.buckets == old(store.buckets)[id := PreparedBucket(Find(old(store.buckets), id), jobText, hard, nice)]
    ensures id == "" ==> store.buckets == old(store.buckets)
  {
    var start: seq<Candidate> := [];
    if id != "" {
      start := store.Prepare(id, jobText, hard, nice);
    }
    cands := ProcessUploads(env, jobText, hard, start, uploads);
  }

  /** Writes the final list back into the session bucket, if there is one. */
  method Save(store: SessionStore, id: string, jobText: string, hard: seq<string>, nice: seq<string>,
              cands: seq<Candidate>, ghost before: map<string, Bucket>)
    requires id != "" ==> store.buckets == before[id := PreparedBucket(Find(before, id), jobText, hard, nice)]
    requires id == "" ==> store.buckets == before
    modifies store
    ensures store.buckets == Stored(before, id, jobText, hard, nice, cands)
  {
    if id != "" {
      store.Persist(id, cands);
    }
  }

  /** `/api/process`: validate, prepare the bucket, process the files, score, persist. */
  method Process(store: SessionStore, form: Form, uploads: seq<Upload>, env: Env) returns (resp: Response)
    modifies store
    ensures var q := RequestOf(form);
      var jobRed := env.redact(q.jobText);
      var cands := AfterUploads(Start(old(store.buckets), q.sessionId, jobRed, q.hardSkills, q.niceSkills), uploads,
                                EntryFn(env, jobRed, q.hardSkills));
      if Validate(q.jobText, |uploads|, q.sessionId).Some? then
        resp == BadRequest(Validate(q.jobText, |uploads|, q.sessionId).value) && store.buckets == old(store.buckets)
      else
        && resp == Ranking(Scoring.Ranked(env.table, jobRed, cands, env.semantic([jobRed] + Sources(cands)),
                                          q.hardSkills, q.niceSkills))
        && store.buckets == Stored(old(store.buckets), q.sessionId, jobRed, q.hardSkills, q.niceSkills, cands)
  {
    var q := RequestOf(form);
    var jobRed := env.redact(q.jobText);
    var rejected := Validate(q.jobText, |uploads|, q.sessionId);
    if rejected.Some? {
      return BadRequest(rejected.value);
    }
    ghost var before := store.buckets;
    var cands := Accumulate(store, q.sessionId, jobRed, q.hardSkills, q.niceSkills, uploads, env);
    var ranked := Scoring.ScoreCandidates(env.table, jobRed, cands, env.semantic([jobRed] + Sources(cands)),
                                          q.hardSkills, q.niceSkills);
    Save(store, q.sessionId, jobRed, q.hardSkills, q.niceSkills, cands, before);
    resp := Ranking(ranked);
  }

  /** `/api/analytics`: as `/api/process`, then analytics attached to every entry
      before scoring, then the success score. The stored entries carry the analytics
      too: the bucket holds the very dicts the analytics loop writes into. */
  method Analytics(store: SessionStore, form: Form, uploads: seq<Upload>, env: Env) returns (resp: Response)
    modifies store
    ensures var q := RequestOf(form);
      var jobRed := env.redact(q.jobText);
      var cands := AfterUploads(Start(old(store.buckets), q.sessionId, jobRed, q.hardSkills, q.niceSkills), uploads,
                                EntryFn(env, jobRed, q.hardSkills));
      var n := |cands|;
      var vec := env.vectorize([jobRed] + Sources(cands));
      var attached := AttachAll(cands, Coords(n, vec), Labels(n, vec), NeighborsAll(Names(cands), vec));
      if Validate(q.jobText, |uploads|, q.sessionId).Some? then
        resp == BadRequest(Validate(q.jobText, |uploads|, q.sessionId).value) && store.buckets == old(store.buckets)
      else
        && resp == Assessment(SuccessAll(Scoring.Ranked(env.table, jobRed, attached,
                                                        env.semantic([jobRed] + Sources(attached)),
                                                        q.hardSkills, q.niceSkills)))
        && store.buckets == Stored(old(store.buckets), q.sessionId, jobRed, q.hardSkills, q.niceSkills, attached)
  {
    var q := RequestOf(form);
    var rejected := Validate(q.jobText, |uploads|, q.sessionId);
    if rejected.Some? {
      return BadRequest(rejected.value);
    }
    var jobRed := env.redact(q.jobText);
    ghost var before := store.buckets;
    var cands := Accumulate(store, q.sessionId, jobRed, q.hardSkills, q.niceSkills, uploads, env);
    var n := |cands|;
    var vec := env.vectorize([jobRed] + Sources(cands));
    var nbs := NearestNeighbors(Names(cands), vec);
    var attached := AttachAnalytics(cands, Coords(n, vec), Labels(n, vec), nbs);
    Save(store, q.sessionId, jobRed, q.hardSkills, q.niceSkills, attached, before);
    var ranked := Scoring.ScoreCandidates(env.table, jobRed, attached, env.semantic([jobRed] + Sources(attached)),
                                          q.hardSkills, q.niceSkills);
    var results := AddSuccessScores(ranked);
    resp := Assessment(results);
  }
}
