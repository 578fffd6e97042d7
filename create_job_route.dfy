/**
 * The job-creation endpoint: three required fields are checked, and the
 * posting is stored as it was sent.
 */
module CreateJobRoute {
  import opened Wrappers
  import opened Text
  import opened JobTypes
  import opened Http
  import opened JobsService

  /** The organisation, the author or the title is missing or empty; no
      other field is checked. */
  predicate MissingJobField(p: JobInsert) {
    !Truthy(p.organizationId) || !Truthy(p.userId) || !Truthy(p.title)
  }

  /**
   * The endpoint's answer for a request body whose `jobData` is `p`
   * (`None` when the body carries none, which fails with an internal
   * error), given the id the store assigns, whether it accepts the insert,
   * and the time.
   */
  function CreateJobResponse(p: Option<JobInsert>, newId: string, now: int, accepted: bool): (r: Response)
    ensures p.None? ==> r == InternalError
    ensures p.Some? && MissingJobField(p.value) ==> r == Error(400, "Missing required fields")
    ensures p.Some? && !MissingJobField(p.value) && !accepted ==> r == Error(500, "Failed to create job")
    ensures r.status == 200 <==> p.Some? && !MissingJobField(p.value) && accepted
    ensures r.status == 200 ==>
              r.body.JobCreatedBody? && r.body.jobId == r.body.job.id == newId &&
              r.body.job.posting == p.value && IsPublic(r.body.job)
  {
    match p
    case None => InternalError
    case Some(posting) =>
      if MissingJobField(posting) then Error(400, "Missing required fields")
      else if !accepted then Error(500, "Failed to create job")
      else
        var job := FromPosting(posting, newId, now);
        Response(200, JobCreatedBody(job, job.id))
  }

  /** Only the three required fields decide whether the request is
      refused: changing any other field of the posting never turns an
      accepted request into a refused one or back. */
  lemma OnlyThreeFieldsChecked(p: JobInsert, q: JobInsert, newId: string, now: int, accepted: bool)
    requires p.organizationId == q.organizationId && p.userId == q.userId && p.title == q.title
    ensures CreateJobResponse(Some(p), newId, now, accepted).status == CreateJobResponse(Some(q), newId, now, accepted).status
  {
  }

  /** `POST` over the job store; it computes exactly `CreateJobResponse`
      and writes the new row only on success. */
  method HandleCreateJob(jobs: JobStore, p: Option<JobInsert>, newId: string, now: int, accepted: bool)
    returns (response: Response)
    requires newId !in jobs.rows
    modifies jobs
    ensures response == CreateJobResponse(p, newId, now, accepted)
    ensures response.status == 200 ==> jobs.rows == old(jobs.rows)[newId := response.body.job]
    ensures response.status != 200 ==> jobs.rows == old(jobs.rows)
  {
    if p.None? {
      return InternalError;
    }
    var posting := p.value;
    if !Truthy(posting.organizationId) || !Truthy(posting.userId) || !Truthy(posting.title) {
      return Error(400, "Missing required fields");
    }
    var created := jobs.Create(posting, newId, now, accepted);
    if created.None? {
      return Error(500, "Failed to create job");
    }
    response := Response(200, JobCreatedBody(created.value, created.value.id));
  }
}
