/** The job-posting records. */
module JobTypes {
  import opened Wrappers

  datatype LocationType = Remote | Onsite | Hybrid

  datatype EmploymentType = FullTime | PartTime | Contract | Internship

  /** The fields a job is created with (the posting itself). Dates are kept
      as the text the form produced. */
  datatype JobInsert = JobInsert(
    organizationId: string,
    userId: string,
    title: string,
    description: string,
    locationType: LocationType,
    locationDetails: Option<string>,
    employmentType: EmploymentType,
    skills: seq<string>,
    experience: string,
    qualifications: seq<string>,
    salaryMin: Option<int>,
    salaryMax: Option<int>,
    salaryCurrency: Option<string>,
    benefits: Option<seq<string>>,
    deadline: Option<string>,
    startDate: Option<string>,
    openings: int)

  /** A stored job: the posting plus the bookkeeping columns. */
  datatype Job = Job(
    id: string,
    createdAt: int,
    updatedAt: int,
    posting: JobInsert,
    isActive: bool,
    isArchived: bool,
    applicationCount: Option<int>)

  /** Candidates may see and apply to a job only while it is active and not
      archived. */
  predicate IsPublic(j: Job) {
    j.isActive && !j.isArchived
  }
}
