/** The JSON responses of the request handlers: an HTTP status and a body. */
module Http {
  import opened ApplicationTypes
  import opened JobTypes

  datatype Interview = Interview(id: string, name: string, description: string,
                                 isActive: bool, isArchived: bool)

  datatype Body =
    | ErrorBody(error: string)
    | AnalysisBody(analysis: Analysis, score: int, cached: bool)
    | SubmittedBody(applicationId: string, message: string)
    | JobCreatedBody(job: Job, jobId: string)
    | InterviewsBody(interviews: seq<Interview>)

  datatype Response = Response(status: int, body: Body)

  function Error(status: int, message: string): Response {
    Response(status, ErrorBody(message))
  }

  const InternalError := Error(500, "Internal server error")
}
