/** The records passed between extraction, analysis, scoring and the web layer.
    Each Python dict with a fixed set of keys becomes a datatype. */
module Records {
  import opened Seqs
  import opened Intervals

  /** Normalised education levels, lowest first. */
  datatype Level = Diploma | Bachelor | Masters | Phd

  /** One entry of `education_normalized`: the raw line and its level. */
  datatype EduNorm = EduNorm(raw: string, level: Level)

  /** The `contacts` dict: first e-mail match, first phone match, up to five links
      (an absent key and an empty list behave alike everywhere they are read). */
  datatype Contacts = Contacts(email: Option<string>, phone: Option<string>, links: seq<string>)

  /** The flags `analyze_profile_vs_job` can raise, in the order it raises them. */
  datatype Flag =
    | EmploymentGaps            // employment_gaps_detected
    | OverlappingRoles          // overlapping_roles_detected
    | DuplicateClaims           // possible_duplicate_claims
    | SensitiveJobDescription   // remove_sensitive_attributes_from_job_description
    | PotentialExaggeration     // potential_exaggeration_detected

  /** The entries of `anomaly_reasons`; the two extreme-claim reasons carry the
      sorted distinct values that triggered them. */
  datatype Reason =
    | ExtremePercent(values: seq<int>)
    | ExtremeMultiplier(values: seq<int>)
    | ManySuperlatives
    | ClaimsWithoutTimeframe
    | DurationInconsistency
    | VeryLowTotalExperience

  /** What `extract_profile` returns. */
  datatype RawProfile = RawProfile(skills: seq<string>, education: seq<string>, experienceRanges: seq<RawRange>)

  /** The profile dict after enrichment. */
  datatype ProfileData = ProfileData(
    skills: seq<string>,
    education: seq<string>,
    experienceRanges: seq<RawRange>,
    educationNormalized: seq<EduNorm>,
    certifications: seq<string>,
    contacts: Contacts)

  /** What `analyze_profile_vs_job` returns. `totalYears` is exact: the rounding to
      two decimals is not modelled. */
  datatype AnalysisResult = AnalysisResult(
    gaps: seq<Gap>,
    overlaps: seq<Window>,
    totalYears: real,
    statedYears: Option<real>,
    flags: seq<Flag>,
    anomalyReasons: seq<Reason>,
    missingHardSkills: seq<string>,
    contacts: Contacts,
    certifications: seq<string>,
    educationNormalized: seq<EduNorm>)

  datatype Neighbor = Neighbor(filename: string, sim: real)

  /** The analytics fields `pca`, `cluster_id` and `neighbors` attached to an entry. */
  datatype Attached = Attached(pca: (real, real), clusterId: int, neighbors: seq<Neighbor>)

  /** A processed resume (the merged profile and analysis dicts), or the error
      entry written when processing a file raised. */
  datatype Body =
    | Processed(rawText: string, rawTextRedacted: string, profile: ProfileData, analysis: AnalysisResult)
    | Failed(error: string)

  /** One candidate entry as stored in a session bucket. */
  datatype Candidate = Candidate(filename: string, body: Body, attached: Option<Attached>)

  /** `c.get("raw_text_redacted") or c.get("raw_text", "")`. */
  function TextSource(c: Candidate): string {
    match c.body
    case Processed(raw, red, _, _) => if red != "" then red else raw
    case Failed(_) => ""
  }

  function CandidateSkills(c: Candidate): seq<string> {
    if c.body.Processed? then c.body.profile.skills else []
  }

  function CandidateFlags(c: Candidate): seq<Flag> {
    if c.body.Processed? then c.body.analysis.flags else []
  }

  function CandidateGaps(c: Candidate): seq<Gap> {
    if c.body.Processed? then c.body.analysis.gaps else []
  }

  function CandidateOverlaps(c: Candidate): seq<Window> {
    if c.body.Processed? then c.body.analysis.overlaps else []
  }

  function CandidateCertifications(c: Candidate): seq<string> {
    if c.body.Processed? then c.body.analysis.certifications else []
  }

  function CandidateEducation(c: Candidate): seq<EduNorm> {
    if c.body.Processed? then c.body.analysis.educationNormalized else []
  }

  function CandidateContacts(c: Candidate): Contacts {
    if c.body.Processed? then c.body.analysis.contacts else Contacts(None, None, [])
  }

  function CandidateRanges(c: Candidate): seq<RawRange> {
    if c.body.Processed? then c.body.profile.experienceRanges else []
  }
}
