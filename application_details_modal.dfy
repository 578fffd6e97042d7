/**
 * The dialog that shows one application to the hiring team: the score and
 * its colour, the recommendation badge, a preview of the resume text, and
 * the shortlist and reject actions.
 */
module ApplicationDetailsModal {
  import opened Wrappers
  import opened Text
  import opened ApplicationTypes
  import opened SelectInterviewModal

  /** The text colour of the overall score: grey for no score or 0, then
      red, yellow and green bands split at 60 and 80. */
  function ScoreColor(score: Option<int>): string {
    if score.None? || score.value == 0 then "text-gray-600"
    else if score.value >= 80 then "text-green-600"
    else if score.value >= 60 then "text-yellow-600"
    else "text-red-600"
  }

  /** The colours in the order of the scores they stand for. */
  function ColorRank(color: string): (rank: int)
    ensures 0 <= rank <= 2
  {
    if color == "text-green-600" then 2
    else if color == "text-yellow-600" then 1
    else 0
  }

  /** A higher non-zero score never gets a lower colour, and the band is
      decided by the thresholds 60 and 80 alone. */
  lemma ScoreColorMonotone(s1: int, s2: int)
    requires s1 != 0 && s2 != 0 && s1 <= s2
    ensures ColorRank(ScoreColor(Some(s1))) <= ColorRank(ScoreColor(Some(s2)))
    ensures ScoreColor(Some(s1)) == "text-green-600" <==> s1 >= 80
    ensures ScoreColor(Some(s1)) == "text-red-600" <==> s1 < 60
  {
  }

  /** Grey marks exactly a missing score and a score of 0, which therefore
      look the same. */
  lemma GreyExactlyWhenUnscored(score: Option<int>)
    ensures ScoreColor(score) == "text-gray-600" <==> score.None? || score.value == 0
    ensures ColorRank(ScoreColor(score)) == 0 <==> score.None? || score.value < 60
  {
  }

  datatype Badge = Badge(color: string, caption: string)

  const UnknownBadge := Badge("bg-gray-100 text-gray-800", "Unknown")

  /** The badge for a recommendation: the four known recommendations get
      their own badge, anything else the "Unknown" one. */
  function RecommendationBadge(rec: string): (b: Badge)
    ensures b == UnknownBadge <==> rec !in {"strong_yes", "shortlist", "maybe", "reject"}
    ensures b.caption != []
  {
    if rec == "strong_yes" then Badge("bg-green-100 text-green-800", "Strong Yes")
    else if rec == "shortlist" then Badge("bg-blue-100 text-blue-800", "Shortlist")
    else if rec == "maybe" then Badge("bg-yellow-100 text-yellow-800", "Maybe")
    else if rec == "reject" then Badge("bg-red-100 text-red-800", "Reject")
    else UnknownBadge
  }

  /** Different known recommendations get different labels. */
  lemma KnownBadgesDistinct(r1: string, r2: string)
    requires r1 in {"strong_yes", "shortlist", "maybe", "reject"}
    requires r2 in {"strong_yes", "shortlist", "maybe", "reject"}
    requires RecommendationBadge(r1).caption == RecommendationBadge(r2).caption
    ensures r1 == r2
  {
  }

  /**
   * The names every object literal inherits from `Object.prototype`. A
   * lookup of one of them in the badge table finds a function (or, for
   * `__proto__`, the prototype object), not a badge.
   */
  const PrototypeMembers: set<string> := {
    "constructor", "hasOwnProperty", "isPrototypeOf", "propertyIsEnumerable",
    "toString", "toLocaleString", "valueOf", "__proto__",
    "__defineGetter__", "__defineSetter__", "__lookupGetter__", "__lookupSetter__"}

  /** What the badge expression yields as written: a badge, or an inherited
      member, which has no colour and no label. */
  datatype BadgeValue = ShownBadge(badge: Badge) | InheritedMember(name: string)

  /**
   * The badge as written: a lookup in an object literal, with the
   * "Unknown" badge as the fallback when the lookup is falsy. Inherited
   * members are truthy, so they are returned instead of the fallback.
   */
  function RecommendationBadgeAsWritten(rec: string): (v: BadgeValue)
    ensures v.InheritedMember? <==> rec in PrototypeMembers
  {
    if rec == "strong_yes" then ShownBadge(Badge("bg-green-100 text-green-800", "Strong Yes"))
    else if rec == "shortlist" then ShownBadge(Badge("bg-blue-100 text-blue-800", "Shortlist"))
    else if rec == "maybe" then ShownBadge(Badge("bg-yellow-100 text-yellow-800", "Maybe"))
    else if rec == "reject" then ShownBadge(Badge("bg-red-100 text-red-800", "Reject"))
    else if rec in PrototypeMembers then InheritedMember(rec)
    else ShownBadge(UnknownBadge)
  }

  /** Away from the inherited names the lookup as written and the corrected
      badge agree. */
  lemma AsWrittenAgreesOffPrototype(rec: string)
    requires rec !in PrototypeMembers
    ensures RecommendationBadgeAsWritten(rec) == ShownBadge(RecommendationBadge(rec))
  {
  }

  /** The recommendation "constructor" gets no badge as written, where the
      "Unknown" badge was meant. */
  lemma ConstructorRecommendationGetsNoBadge()
    ensures RecommendationBadgeAsWritten("constructor").InheritedMember?
    ensures RecommendationBadge("constructor") == UnknownBadge
  {
    assert "constructor" in PrototypeMembers;
  }

  /** The badge shown for a report: only a report with a non-empty
      recommendation shows one. */
  function ShownRecommendation(analysis: Option<Analysis>): (b: Option<Badge>)
    ensures b.Some? <==> analysis.Some? && analysis.value.recommendation != []
    ensures b.Some? ==> b.value == RecommendationBadge(analysis.value.recommendation)
  {
    if analysis.Some? && Truthy(analysis.value.recommendation)
    then Some(RecommendationBadge(analysis.value.recommendation))
    else None
  }

  /** The longest resume text shown in full. */
  const PreviewLength := 1000

  /** The resume preview, shown only beside a resume link: the first 1000
      characters of a non-empty resume text, followed by "..." when the
      text is longer. */
  function ResumePreview(resumeUrl: string, resumeText: Option<string>): (p: Option<string>)
    ensures p.Some? <==> resumeUrl != [] && TruthyOpt(resumeText)
    ensures p.Some? && |resumeText.value| <= PreviewLength ==> p.value == resumeText.value
    ensures p.Some? && |resumeText.value| > PreviewLength ==>
              |p.value| == PreviewLength + 3 && p.value[..PreviewLength] == resumeText.value[..PreviewLength] &&
              p.value[PreviewLength..] == "..."
  {
    if !Truthy(resumeUrl) || !TruthyOpt(resumeText) then None
    else
      var t := resumeText.value;
      if |t| > PreviewLength then Some(t[..PreviewLength] + "...") else Some(t)
  }

  /** The preview never shows more than 1003 characters, and always starts
      the way the resume does. */
  lemma PreviewIsBoundedPrefix(resumeUrl: string, resumeText: string)
    requires resumeUrl != [] && resumeText != []
    ensures var p := ResumePreview(resumeUrl, Some(resumeText)).value;
            |p| <= PreviewLength + 3 &&
            (|p| <= PreviewLength ==> p == resumeText) &&
            var n := if |resumeText| < PreviewLength then |resumeText| else PreviewLength;
            p[..n] == resumeText[..n]
  {
  }

  /** The shortlist and reject actions are offered. */
  predicate ShowActions(status: Status) {
    status != Shortlisted && status != Rejected
  }

  /** Actions are offered exactly for new, reviewed and invited candidates. */
  lemma ActionsForOpenApplications(status: Status)
    ensures ShowActions(status) <==> status == New || status == Reviewing || status == Invited
  {
  }

  /** The request that rejects a candidate. */
  datatype RejectRequest = RejectRequest(path: string, companyName: string)

  class ApplicationDetails {
    var loading: bool
    var showInterviewModal: bool
    /** Calls of the parent's `onUpdate`. */
    var updates: nat
    /** Calls of the parent's `onClose`. */
    var closes: nat

    constructor ()
      ensures !loading && !showInterviewModal && updates == 0 && closes == 0
    {
      loading, showInterviewModal := false, false;
      updates, closes := 0, 0;
    }

    /**
     * `handleReject`: no request without an application or when the user
     * declines the confirmation (`confirmed`). Otherwise the rejection is
     * sent with the company name; `succeeded` is whether the server
     * reported success, which refreshes and closes the dialog. `loading`
     * is cleared at the end in every case.
     */
    method HandleReject(application: Option<Application>, confirmed: bool, organizationName: Option<string>,
                        succeeded: bool)
      returns (request: Option<RejectRequest>)
      modifies this
      ensures request.Some? <==> application.Some? && confirmed
      ensures request.Some? ==>
                request.value == RejectRequest("/api/applications/" + application.value.id + "/reject",
                                               CompanyName(organizationName)) && !loading
      ensures request.None? ==> loading == old(loading)
      ensures request.Some? && succeeded ==> updates == old(updates) + 1 && closes == old(closes) + 1
      ensures request.None? || !succeeded ==> updates == old(updates) && closes == old(closes)
      ensures showInterviewModal == old(showInterviewModal)
    {
      if application.None? || !confirmed {
        return None;
      }
      loading := true;
      request := Some(RejectRequest("/api/applications/" + application.value.id + "/reject",
                                    CompanyName(organizationName)));
      if succeeded {
        updates := updates + 1;
        closes := closes + 1;
      }
      loading := false;
    }

    /** The shortlist button (disabled while a rejection is in flight)
        opens the interview picker. */
    method OpenInterviewPicker()
      requires !loading
      modifies this
      ensures showInterviewModal && !loading && updates == old(updates) && closes == old(closes)
    {
      showInterviewModal := true;
    }

    /** The picker is dismissed: it is hidden and nothing else happens. */
    method InterviewPickerClosed()
      modifies this
      ensures !showInterviewModal
      ensures loading == old(loading) && updates == old(updates) && closes == old(closes)
    {
      showInterviewModal := false;
    }

    /** The picker shortlisted the candidate: it is hidden, and the parent
        refreshes and closes this dialog. */
    method InterviewPickerSucceeded()
      modifies this
      ensures !showInterviewModal
      ensures loading == old(loading) && updates == old(updates) + 1 && closes == old(closes) + 1
    {
      showInterviewModal := false;
      updates := updates + 1;
      closes := closes + 1;
    }
  }
}
