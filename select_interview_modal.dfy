/**
 * The dialog that shortlists a candidate by sending them a link to one of
 * the organisation's interviews.
 */
module SelectInterviewModal {
  import opened Wrappers
  import opened Text
  import opened ApplicationTypes
  import opened Http

  /** The company name sent with a shortlist or rejection. */
  function CompanyName(organizationName: Option<string>): (n: string)
    ensures TruthyOpt(organizationName) ==> n == organizationName.value
    ensures !TruthyOpt(organizationName) ==> n == "Our Company"
    ensures n != []
  {
    if TruthyOpt(organizationName) then organizationName.value else "Our Company"
  }

  /** `r` is the first interview in `list` with the given id, or `None`
      when there is none. */
  predicate FirstMatch(list: seq<Interview>, id: string, r: Option<Interview>) {
    (r.None? <==> forall k | 0 <= k < |list| :: list[k].id != id) &&
    (r.Some? ==> exists k | 0 <= k < |list| :: list[k] == r.value &&
                   r.value.id == id && forall m | 0 <= m < k :: list[m].id != id)
  }

  /** The first match after a non-matching head is the first match of the
      whole list. */
  lemma FirstMatchPastHead(list: seq<Interview>, id: string, r: Option<Interview>)
    requires list != [] && list[0].id != id && FirstMatch(list[1..], id, r)
    ensures FirstMatch(list, id, r)
  {
    assert forall k | 1 <= k < |list| :: list[k] == list[1..][k - 1];
    if r.Some? {
      var k :| 0 <= k < |list[1..]| && list[1..][k] == r.value &&
               r.value.id == id && forall m | 0 <= m < k :: list[1..][m].id != id;
      assert list[k + 1] == r.value;
      assert forall m | 0 <= m < k + 1 :: list[m].id != id by {
        forall m | 0 <= m < k + 1 ensures list[m].id != id {
          if m > 0 { assert list[m] == list[1..][m - 1]; }
        }
      }
    }
  }

  /** The first interview in `list` with the given id, as `find` returns it. */
  function FindInterview(list: seq<Interview>, id: string): (r: Option<Interview>)
    ensures FirstMatch(list, id, r)
  {
    if list == [] then None
    else if list[0].id == id then Some(list[0])
    else
      var rest := FindInterview(list[1..], id);
      FirstMatchPastHead(list, id, rest);
      rest
  }

  /** The link the candidate is sent: the site's origin, "/call/" and the
      interview's id. */
  function InterviewUrl(origin: string, interviewId: string): string {
    origin + "/call/" + interviewId
  }

  /** Different interviews get different links on the same site. */
  lemma InterviewUrlInjective(origin: string, id1: string, id2: string)
    requires InterviewUrl(origin, id1) == InterviewUrl(origin, id2)
    ensures id1 == id2
  {
    var u1, u2 := InterviewUrl(origin, id1), InterviewUrl(origin, id2);
    assert id1 == u1[|origin| + 6..];
    assert id2 == u2[|origin| + 6..];
  }

  /** What the response to the list request held: `None` when it carried
      no `interviews` field. */
  type ListedInterviews = Option<seq<Interview>>

  /** The request the dialog sends to shortlist a candidate. */
  datatype ShortlistRequest = ShortlistRequest(path: string, interviewUrl: string, companyName: string)

  class InterviewPicker {
    var interviews: seq<Interview>
    var selectedInterview: string
    var loading: bool
    /** Calls of the parent's `onSuccess`. */
    var successes: nat
    /** Calls of the parent's `onClose`. */
    var closes: nat

    constructor ()
      ensures interviews == [] && selectedInterview == [] && !loading && successes == 0 && closes == 0
    {
      interviews, selectedInterview, loading := [], [], false;
      successes, closes := 0, 0;
    }

    /** The Submit button is enabled: it is disabled while nothing is
        selected or a request is in flight. */
    predicate CanSubmit()
      reads this
      ensures CanSubmit() <==> selectedInterview != [] && !loading
    {
      !(!Truthy(selectedInterview) || loading)
    }

    /** A click on the card of the `k`-th listed interview selects it; the
        selection is then found in the list, and Submit is enabled unless a
        request is in flight or the interview's id is empty. */
    method Select(k: nat)
      requires k < |interviews|
      modifies this
      ensures selectedInterview == old(interviews)[k].id
      ensures FindInterview(interviews, selectedInterview).Some?
      ensures selectedInterview != [] && !loading ==> CanSubmit()
      ensures interviews == old(interviews) && loading == old(loading)
      ensures successes == old(successes) && closes == old(closes)
    {
      selectedInterview := interviews[k].id;
      assert interviews[k].id == selectedInterview;
    }

    /** `fetchInterviews`: nothing without an organisation; a failed request
        (`None`) keeps the list; a response without the field empties it. */
    method FetchInterviews(organizationId: Option<string>, response: Option<ListedInterviews>)
      modifies this
      ensures !TruthyOpt(organizationId) || response.None? ==> interviews == old(interviews)
      ensures TruthyOpt(organizationId) && response.Some? ==> interviews == response.value.GetOr([])
      ensures selectedInterview == old(selectedInterview) && loading == old(loading)
      ensures successes == old(successes) && closes == old(closes)
    {
      if !TruthyOpt(organizationId) {
        return;
      }
      if response.Some? {
        interviews := response.value.GetOr([]);
      }
    }

    /** `handleClose`: the selection is cleared and the parent told. */
    method HandleClose()
      modifies this
      ensures selectedInterview == [] && closes == old(closes) + 1
      ensures interviews == old(interviews) && loading == old(loading) && successes == old(successes)
    {
      selectedInterview := [];
      closes := closes + 1;
    }

    /**
     * `handleSubmit`: no request without an application, without a
     * selection, or when the selected id is not among the loaded
     * interviews. Otherwise the shortlist request carries the interview's
     * link; `succeeded` is whether the server reported success, which
     * tells the parent and closes the dialog. `loading` is cleared at the
     * end in every case.
     */
    method HandleSubmit(application: Option<Application>, origin: string, organizationName: Option<string>,
                        succeeded: bool)
      returns (request: Option<ShortlistRequest>)
      modifies this
      ensures var chosen := FindInterview(old(interviews), old(selectedInterview));
              request.Some? <==> application.Some? && old(selectedInterview) != [] && chosen.Some?
      ensures request.Some? && !old(loading) ==> old(CanSubmit())
      ensures request.None? ==>
                interviews == old(interviews) && selectedInterview == old(selectedInterview) &&
                loading == old(loading) && successes == old(successes) && closes == old(closes)
      ensures request.Some? ==>
                var chosen := FindInterview(old(interviews), old(selectedInterview)).value;
                request.value == ShortlistRequest("/api/applications/" + application.value.id + "/shortlist",
                                                  InterviewUrl(origin, chosen.id), CompanyName(organizationName)) &&
                chosen.id == old(selectedInterview) && !loading && interviews == old(interviews) &&
                (succeeded ==> successes == old(successes) + 1 && closes == old(closes) + 1 && selectedInterview == []) &&
                (!succeeded ==> successes == old(successes) && closes == old(closes) &&
                                selectedInterview == old(selectedInterview))
    {
      if application.None? || selectedInterview == [] {
        return None;
      }
      var interview := FindInterview(interviews, selectedInterview);
      if interview.None? {
        return None;
      }
      loading := true;
      var url := InterviewUrl(origin, interview.value.id);
      request := Some(ShortlistRequest("/api/applications/" + application.value.id + "/shortlist",
                                       url, CompanyName(organizationName)));
      if succeeded {
        successes := successes + 1;
        HandleClose();
      }
      loading := false;
    }
  }
}
