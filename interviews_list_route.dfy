/**
 * The interview-list endpoint: the organisation's interviews that are
 * active and not archived.
 */
module InterviewsListRoute {
  import opened Wrappers
  import opened Text
  import opened Seqs
  import opened Http

  /** An interview candidates can be invited to. */
  predicate IsLive(i: Interview) {
    i.isActive && !i.isArchived
  }

  /** The interview service's listing for (user, organisation); `None` when
      it fails, which the endpoint reports as an internal error. */
  type InterviewFetch = (string, string) -> Option<seq<Interview>>

  /** The user the listing is asked for: the given one, or the empty text. */
  function FetchUser(userId: Option<string>): (u: string)
    ensures TruthyOpt(userId) ==> u == userId.value
    ensures !TruthyOpt(userId) ==> u == []
  {
    if TruthyOpt(userId) then userId.value else []
  }

  /** `GET` with the query's `organizationId` and `userId`. */
  function ListInterviews(organizationId: Option<string>, userId: Option<string>, fetch: InterviewFetch): (r: Response)
    ensures !TruthyOpt(organizationId) ==> r == Error(400, "Organization ID is required")
    ensures TruthyOpt(organizationId) && fetch(FetchUser(userId), organizationId.value).None? ==> r == InternalError
    ensures r.status == 200 <==> TruthyOpt(organizationId) && fetch(FetchUser(userId), organizationId.value).Some?
    ensures r.status == 200 ==>
              var all := fetch(FetchUser(userId), organizationId.value).value;
              r.body.InterviewsBody? &&
              (forall k | 0 <= k < |r.body.interviews| :: IsLive(r.body.interviews[k]) && r.body.interviews[k] in all) &&
              (forall k | 0 <= k < |all| :: IsLive(all[k]) ==> all[k] in r.body.interviews)
  {
    if !TruthyOpt(organizationId) then Error(400, "Organization ID is required")
    else
      match fetch(FetchUser(userId), organizationId.value)
      case None => InternalError
      case Some(all) => Response(200, InterviewsBody(Filter(all, IsLive)))
  }

  /** The listed interviews keep the order the service gave them in, and
      none is listed twice unless the service listed it twice. */
  lemma ListedInServiceOrder(organizationId: string, userId: Option<string>, fetch: InterviewFetch)
    requires organizationId != [] && fetch(FetchUser(userId), organizationId).Some?
    ensures var all := fetch(FetchUser(userId), organizationId).value;
            var listed := ListInterviews(Some(organizationId), userId, fetch).body.interviews;
            IsSubsequence(listed, all) &&
            (forall i :: IsLive(i) ==> multiset(listed)[i] == multiset(all)[i])
  {
    FilterKeepsOrder(fetch(FetchUser(userId), organizationId).value, IsLive);
  }
}
