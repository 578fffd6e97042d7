/** The application records: an applicant's submission for one job, its
    five-valued review status and the stored resume-to-job match report. */
module ApplicationTypes {
  import opened Wrappers

  datatype Status = New | Reviewing | Shortlisted | Invited | Rejected

  /** The text the store keeps for a status. */
  function StatusName(s: Status): (name: string)
    ensures name in {"new", "reviewing", "shortlisted", "invited", "rejected"}
  {
    match s
    case New => "new"
    case Reviewing => "reviewing"
    case Shortlisted => "shortlisted"
    case Invited => "invited"
    case Rejected => "rejected"
  }

  lemma StatusNameInjective(a: Status, b: Status)
    requires StatusName(a) == StatusName(b)
    ensures a == b
  {
  }

  datatype SkillsMatch = SkillsMatch(
    score: int, matchedSkills: seq<string>, missingSkills: seq<string>,
    additionalSkills: seq<string>)

  datatype ExperienceMatch = ExperienceMatch(score: int, yearsFound: string, feedback: string)

  datatype QualificationsMatch = QualificationsMatch(
    score: int, matched: seq<string>, missing: seq<string>, feedback: string)

  /** The match report. It is produced by an external scorer and stored as
      received, so `recommendation` is whatever text the scorer returned;
      the four intended values are "reject", "maybe", "shortlist" and
      "strong_yes". */
  datatype Analysis = Analysis(
    overallScore: int,
    overallFeedback: string,
    skills: SkillsMatch,
    experience: ExperienceMatch,
    qualifications: QualificationsMatch,
    strengths: seq<string>,
    concerns: seq<string>,
    recommendation: string)

  datatype Application = Application(
    id: string,
    createdAt: int,
    updatedAt: int,
    jobId: string,
    name: string,
    email: string,
    phone: string,
    resumeUrl: string,
    resumeText: Option<string>,
    coverLetter: Option<string>,
    atsAnalysis: Option<Analysis>,
    atsScore: Option<int>,
    status: Status,
    isViewed: bool,
    interviewId: Option<string>)

  /** The fields a new application is created with. */
  datatype ApplicationInsert = ApplicationInsert(
    jobId: string,
    name: string,
    email: string,
    phone: string,
    resumeUrl: string,
    resumeText: Option<string>,
    coverLetter: Option<string>,
    atsAnalysis: Option<Analysis>,
    atsScore: Option<int>,
    status: Option<Status>)

  /** A partial update: `None` leaves the field as it is. */
  datatype ApplicationUpdate = ApplicationUpdate(
    name: Option<string>,
    email: Option<string>,
    phone: Option<string>,
    resumeText: Option<string>,
    coverLetter: Option<string>,
    atsAnalysis: Option<Analysis>,
    atsScore: Option<int>,
    status: Option<Status>,
    isViewed: Option<bool>,
    interviewId: Option<string>,
    updatedAt: Option<int>)

  /** The update that sets nothing. */
  const NoChange := ApplicationUpdate(None, None, None, None, None, None, None, None, None, None, None)

  /** An update that stores a match report and its overall score. */
  function AnalysisUpdate(a: Analysis): (u: ApplicationUpdate)
    ensures u.atsAnalysis == Some(a) && u.atsScore == Some(a.overallScore)
    ensures u.(atsAnalysis := None, atsScore := None) == NoChange
  {
    NoChange.(atsAnalysis := Some(a), atsScore := Some(a.overallScore))
  }

  /** What the scorer is asked to compare. */
  datatype AnalysisRequest = AnalysisRequest(
    resumeText: string,
    jobDescription: string,
    requiredSkills: seq<string>,
    experienceRequirement: string,
    qualifications: seq<string>)

  /** The external scorer: it answers with a report or with nothing. */
  type Analyser = AnalysisRequest -> Option<Analysis>
}
