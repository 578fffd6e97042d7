# TalentHireAI hiring workflow, modelled in Dafny

TalentHireAI is a hiring tool. An organisation:

- posts jobs through a three-step wizard;
- publishes them on a public careers page;
- receives applications with a PDF resume;
- has each resume screened by an external language-model scorer (the ATS, applicant tracking system, report);
- shortlists or rejects candidates from an application dialog.

This project models the deterministic bookkeeping and decision logic around that scorer. It covers:

- **Store services.**
  - Application statistics.
  - The application query parameters.
  - Partial updates stamped with a fresh `updated_at`.
  - Job archiving (which is also job deletion) and public visibility.
  - The job list filter.
  - The application counter.
- **Request handlers.**
  - The analysis endpoint and its cache.
  - The public application pipeline: validate, upload, create, screen, count.
  - The resume upload and delete actions.
  - Job creation.
  - The interview list.
- **Job-creation wizard.**
  - The step machine with its delayed reset.
  - The three step forms.
  - The duplicate-free, trimmed tag lists.
  - The record the last step submits.
- **Application dialog and interview picker.**
  - Score colours.
  - Recommendation badges.
  - The resume preview.
  - Action visibility.
  - The reject and shortlist requests.

Modelling choices:

- The stores are classes holding a `map` from id to record. Operations that change a record in place are methods with `modifies` clauses.
- Pure request logic is written as functions, and each handler method is proved to compute its function.
- Everything the code learns from outside is a parameter:
  - the scorer's answer (`Analyser`);
  - whether a write is accepted or a query fails;
  - storage's answers;
  - the PDF's pages;
  - the clock (one reading per request);
  - the user's confirmation;
  - server replies.

JavaScript semantics the code relies on are modelled explicitly in `Text`:

- `trim` and its whitespace set;
- `parseInt`, with `None` standing for `NaN`;
- `Number.prototype.toString`;
- `join("\n")`;
- truthiness: `""`, `0`, `null` and `undefined` are falsy.

`Math.round` of the mean is integer round-half-up: `(2·sum + n) div (2·n)`.

Files:

- `wrappers.dfy` and `text.dfy` hold the `Option` type and the JavaScript semantics.
- `seqs.dfy` holds order-preserving filtering.
- `application_types.dfy`, `job_types.dfy` and `http.dfy` hold the records and responses.
- One file per source file for the rest.

## Model

| member | source | states |
|---|---|---|
| ApplicationTypes.StatusNameInjective | src/types/application.ts:41 | the five statuses are stored under five distinct names |
| ApplicationTypes.AnalysisUpdate | src/app/api/applications/analyze/route.ts:74-80 | the analysis write sets the report and `ats_score` to the report's overall score, and nothing else |
| Text.Trim | src/components/dashboard/jobs/steps/requirementsStep.tsx:33 | `trim` removes exactly the leading and trailing whitespace; the result is empty iff the text is all whitespace |
| Text.TrimIdempotent | src/components/dashboard/jobs/steps/basicInfoStep.tsx:45-48 | trimming a trimmed text changes nothing |
| Text.ParseInt | src/components/dashboard/jobs/steps/compensationStep.tsx:75 | `parseInt` yields a number only when the text holds a digit |
| Text.ParseIntReadsDecimal | src/components/dashboard/jobs/steps/compensationStep.tsx:70-75 | `parseInt` skips leading whitespace, applies one sign and reads a decimal numeral up to the first non-digit, so "12abc" gives 12 and "-0" gives 0 |
| Text.ParseIntReadsHex | src/components/dashboard/jobs/steps/compensationStep.tsx:70-75 | after an optional sign, a `0x` or `0X` prefix makes `parseInt` read the hexadecimal run that follows, so " -0x1F" gives -31 |
| Text.ParseIntToString | src/components/dashboard/jobs/steps/compensationStep.tsx:51 | `parseInt` reads back every plain decimal `IntToString` writes, which is what `toString` writes for a safe integer |
| Text.IntToStringInjective | src/actions/upload-resume.ts:58-59 | different timestamps are written as different texts |
| Text.JoinLines | src/actions/upload-resume.ts:40 | the pages joined by line breaks; one page is its own text |
| Text.JoinLinesBlank | src/app/api/careers/apply/route.ts:72 | the joined text is blank iff every page is blank |
| Seqs.FilterKeepsOrder | src/app/api/interviews/list/route.ts:25-27 | filtering keeps a subsequence of the input holding every matching element, with multiplicities |
| ApplicationsService.CountStatusIsMultiplicity | src/services/applications.service.ts:259-271 | a status count is the number of rows with exactly that status |
| ApplicationsService.FiveCountsPartition | src/services/applications.service.ts:258-271 | the five counts never exceed the total, and sum to it when every row has a known status |
| ApplicationsService.SumBounds | src/services/applications.service.ts:276-279 | the sum of n scores in [lo, hi] lies in [n·lo, n·hi] |
| ApplicationsService.RoundedMean | src/services/applications.service.ts:276-288 | the mean of the scored values rounded half up; 0 for no values |
| ApplicationsService.RoundedMeanWithin | src/services/applications.service.ts:276-288 | the rounded mean lies between the smallest and the largest value |
| ApplicationsService.GetApplicationStats | src/services/applications.service.ts:236-302 | all zero on a query error; total is the row count; each of the five counts is the multiplicity of its status among the rows; the counts sum to at most the total, exactly when every status is known; the average is `RoundedMean` of the non-null scores, 0 without any |
| ApplicationsService.StatsCountStatuses | src/services/applications.service.ts:259-271 | each of the five status counts is the multiplicity of that status among the rows |
| ApplicationsService.ScoredValuesAreFilteredScores | src/services/applications.service.ts:273-275 | the averaged values are the scores of the rows whose score is not null, in row order |
| ApplicationsService.UnscoredRowKeepsAverage | src/services/applications.service.ts:273-279 | a row without a score adds to the total but leaves the average unchanged |
| ApplicationsService.AverageWithinScores | src/services/applications.service.ts:273-288 | the average lies between the lowest and the highest stored score |
| ApplicationsService.BuildApplicationsQuery | src/services/applications.service.ts:34-68 | the query selects exactly the job's rows with the given status (none or "all": any) and a score inside the inclusive bounds; order defaults to `created_at` descending, and a score order puts null scores last |
| ApplicationsService.ScoreOrderPutsNullsLast | src/services/applications.service.ts:63 | in a score order a scored row precedes an unscored one and never the reverse |
| ApplicationsService.FromInsert | src/services/applications.service.ts:12-32 | a created row carries every payload field (job, name, email, phone, resume link and text, cover letter, report, score), the new id, status "new" by default, not viewed, both timestamps now |
| ApplicationsService.ApplyUpdate | src/services/applications.service.ts:104-126 | each of the ten payload fields replaces the stored one when given and keeps it when absent; id, job, creation time and resume link are kept; `updated_at` becomes now |
| ApplicationsService.EmptyUpdateOnlyTouchesTimestamp | src/services/applications.service.ts:111 | an empty payload changes only `updated_at` |
| ApplicationsService.AnalysisUpdateTouchesOnlyReport | src/services/applications.service.ts:111 | the analysis write changes only the report, the score and `updated_at` |
| ApplicationsService.UpdateIdempotent | src/services/applications.service.ts:111 | applying the same payload twice equals applying it once at the later time |
| ApplicationsService.ApplicationStore.GetById | src/services/applications.service.ts:84-102 | found iff the id is stored, and then the stored row |
| ApplicationsService.ApplicationStore.Create | src/services/applications.service.ts:12-32 | an accepted insert adds exactly `FromInsert` under the new id; a refused one changes nothing |
| ApplicationsService.ApplicationStore.Update | src/services/applications.service.ts:104-126 | a stored row is replaced by `ApplyUpdate`, nothing else changes; an unknown id changes nothing |
| ApplicationsService.ApplicationStore.UpdateStatus | src/services/applications.service.ts:147-167 | success iff no store fault; then only that row's status and `updated_at` change |
| ApplicationsService.ApplicationStore.MarkAsViewed | src/services/applications.service.ts:169-186 | success iff no store fault; then only that row's viewed flag is set |
| JobsService.GetJobStats | src/services/jobs.service.ts:205-257 | all zero on a query error; total is the row count; the new, shortlisted and invited counts are the multiplicities of those statuses; the average is `RoundedMean` of the non-null scores; new + shortlisted + invited ≤ total |
| JobsService.JobStatsAgreeWithApplicationStats | src/services/jobs.service.ts:223-245 | the job statistics are the matching fields of the application statistics |
| JobsService.BuildJobsQuery | src/services/jobs.service.ts:26-50 | "active" selects active non-archived jobs, "archived" archived ones, anything else no status filter; the type filters are exact matches |
| JobsService.PublicListing | src/services/jobs.service.ts:154-181 | empty on a query error; every listed job is active, not archived, from the table and, when an organisation is given, from it; every such job is listed |
| JobsService.PublicListingUnrestricted | src/services/jobs.service.ts:165-167 | without an organisation the listing is exactly the table's public jobs, in order |
| JobsService.Archived | src/services/jobs.service.ts:120 | the archived job is archived, inactive and not public; nothing else changes |
| JobsService.ArchiveIdempotent | src/services/jobs.service.ts:139 | archiving twice is archiving once |
| JobsService.FromPosting | src/services/jobs.service.ts:6-24 | a new job carries its posting, is public and counts no applications |
| JobsService.JobStore.GetById | src/services/jobs.service.ts:72-90 | found iff the id is stored, and then the stored job |
| JobsService.JobStore.GetPublicById | src/services/jobs.service.ts:183-203 | found iff the id is stored and the job is active and not archived |
| JobsService.JobStore.Create | src/services/jobs.service.ts:6-24 | an accepted insert adds exactly `FromPosting` under the new id; a refused one changes nothing |
| JobsService.JobStore.Archive | src/services/jobs.service.ts:135-152 | success iff no store fault; the job becomes `Archived`, and is then not publicly found |
| JobsService.JobStore.Delete | src/services/jobs.service.ts:116-133 | the same update as archiving, with the same result |
| JobsService.JobStore.IncrementApplicationCount | src/services/jobs.service.ts:259-278 | when the procedure runs, or the fallback's read and write both succeed, the count becomes the old count (missing read as 0) plus one and only the count and `updated_at` change; when both fail, or the job is unknown, nothing changes |
| AnalyzeRoute.Analyze | src/app/api/applications/analyze/route.ts:6-97 | 400 without an id, 404 for an unknown one; a cached report is served as is; 404 "Job not found", 400 without resume text, 500 when the scorer gives nothing, each writing nothing; otherwise 200 with the scorer's report, its score and `cached: false`, and the analysis update written exactly when the write is accepted |
| AnalyzeRoute.CachedIgnoresScorer | src/app/api/applications/analyze/route.ts:31-40 | a cached answer is the same for any scorer and writes nothing |
| AnalyzeRoute.NoResumeTextIgnoresScorer | src/app/api/applications/analyze/route.ts:50-55 | without resume text the answer is 400 whatever the scorer |
| AnalyzeRoute.RepeatIsCached | src/app/api/applications/analyze/route.ts:31-89 | after a stored report with a non-zero score, the next call serves it with `cached: true` and writes nothing |
| AnalyzeRoute.ZeroScoreIsReanalysed | src/app/api/applications/analyze/route.ts:31 | a stored report with score 0 is not served from the cache |
| AnalyzeRoute.HandleAnalyze | src/app/api/applications/analyze/route.ts:6-97 | the handler over the stores computes exactly `Analyze` |
| ApplyRoute.TempId | src/app/api/careers/apply/route.ts:37 | "temp-" followed by the time |
| ApplyRoute.ApplicationPayload | src/app/api/careers/apply/route.ts:54-62 | the form's fields, the resume link, empty text and an empty cover letter stored as absent |
| ApplyRoute.Screening | src/app/api/careers/apply/route.ts:72-80 | a blank resume is never sent to the scorer; otherwise the scorer's answer |
| ApplyRoute.StoredApplication | src/app/api/careers/apply/route.ts:54-95 | the new row: status new, the resume link, and a score iff a report came back and was written, equal to its overall score |
| ApplyRoute.BlankResumeNotScreened | src/app/api/careers/apply/route.ts:72 | with a blank resume the stored row is the same for any scorer |
| ApplyRoute.UploadFor | src/app/api/careers/apply/route.ts:36-44 | the upload is asked to store the resume under "temp-" plus the time, and a successful upload reports that path |
| ApplyRoute.ObjectsAfterUpload | src/app/api/careers/apply/route.ts:39-69 | after a successful upload storage holds the resume under its temporary path, also when creating the row then fails; otherwise at most that object is added |
| ApplyRoute.SubmitApplication | src/app/api/careers/apply/route.ts:7-115 | 400 with nothing changed on a missing field; 404 with nothing changed for a job not publicly open; once the upload is tried storage holds `ObjectsAfterUpload`; 500 without a row on a failed upload or create; otherwise 200 with the new id, the row `StoredApplication`, and the job's count up by one unless both ways of counting failed, in which case the jobs are unchanged |
| ApplyRoute.UploadAndCreate | src/app/api/careers/apply/route.ts:36-107 | after the job check: storage holds `ObjectsAfterUpload`; 500 without a row on a failed upload or create; otherwise 200 with the row `StoredApplication`, and the count up by one exactly when the counting reaches the store |
| ApplyRoute.CreateAndScreen | src/app/api/careers/apply/route.ts:53-107 | 500 with nothing changed when the store refuses the row; otherwise 200 with the new id, the row `StoredApplication`, and the job's count up by one when the procedure or the fallback succeeds, the jobs unchanged when both fail |
| ApplyRoute.CreateScreened | src/app/api/careers/apply/route.ts:53-95 | a row is created iff the store accepts it, and what the store then holds under the new id is `StoredApplication` |
| ApplyRoute.ScreenCreated | src/app/api/careers/apply/route.ts:72-95 | the new row receives the analysis update iff the scorer answered and the write was accepted |
| ResumeUpload.FileError | src/actions/upload-resume.ts:11-33 | missing file, then the PDF type, then the size, in that order |
| ResumeUpload.SizeLimitBoundary | src/actions/upload-resume.ts:27-33 | exactly 10 MiB passes, one byte more fails, and a wrong type is reported before the size |
| ResumeUpload.ExtractedText | src/actions/upload-resume.ts:35-44 | a failed read leaves the text empty |
| ResumeUpload.StoragePathInjective | src/actions/upload-resume.ts:58-59 | equal paths come from the same folder, time and file name |
| ResumeUpload.UploadOutcome | src/actions/upload-resume.ts:6-102 | the first failing check's error; then storage refusal; then a missing signed link; success iff all pass, with the link, the path and the extracted text |
| ResumeUpload.ExtractionFailureDoesNotFailUpload | src/actions/upload-resume.ts:36-44 | a failed text extraction changes only the text of the result |
| ResumeUpload.Bucket.UploadResume | src/actions/upload-resume.ts:6-102 | the result is `UploadOutcome`, and the file is stored iff it passes the checks and storage accepts a new path, even when the signed link then fails |
| ResumeUpload.Bucket.DeleteResume | src/actions/upload-resume.ts:104-137 | success iff storage reports no error, and then the object is gone |
| CreateJobRoute.CreateJobResponse | src/app/api/jobs/create/route.ts:4-36 | 400 for a missing organisation, user or title; 500 when the store refuses; 200 iff neither, with the job and `jobId` equal to its id |
| CreateJobRoute.OnlyThreeFieldsChecked | src/app/api/jobs/create/route.ts:9-16 | payloads agreeing on those three fields get the same status |
| CreateJobRoute.HandleCreateJob | src/app/api/jobs/create/route.ts:4-36 | the handler answers `CreateJobResponse`, and a row is added iff the answer is 200 |
| InterviewsListRoute.FetchUser | src/app/api/interviews/list/route.ts:19-22 | an absent user id is passed on as the empty text |
| InterviewsListRoute.ListInterviews | src/app/api/interviews/list/route.ts:4-37 | 400 without an organisation; 500 when the fetch fails; otherwise exactly the active, non-archived interviews |
| InterviewsListRoute.ListedInServiceOrder | src/app/api/interviews/list/route.ts:25-27 | the listed interviews keep the fetched order |
| TagList.AddTag | src/components/dashboard/jobs/steps/requirementsStep.tsx:32-38 | the trimmed input is appended, and the input cleared, iff it is non-empty and new; otherwise nothing changes |
| TagList.RemoveTag | src/components/dashboard/jobs/steps/requirementsStep.tsx:40-42 | every occurrence of the value is removed, the others keep their order and number |
| TagList.AddTagKeepsInvariant | src/components/dashboard/jobs/steps/requirementsStep.tsx:32-38 | adding keeps the list duplicate-free with every entry trimmed and non-empty |
| TagList.AddTagPreservesWellFormed | src/components/dashboard/jobs/steps/requirementsStep.tsx:32-38 | a well-formed list stays well-formed after any add |
| TagList.RemoveTagKeepsInvariant | src/components/dashboard/jobs/steps/requirementsStep.tsx:40-42 | removing keeps the list duplicate-free and trimmed |
| TagList.RemoveTagPreservesWellFormed | src/components/dashboard/jobs/steps/requirementsStep.tsx:40-42 | a well-formed list stays well-formed after any remove |
| TagList.RemoveUndoesAdd | src/components/dashboard/jobs/steps/requirementsStep.tsx:32-42 | removing a tag just added restores the list |
| TagList.RejectedAddChangesNothing | src/components/dashboard/jobs/steps/requirementsStep.tsx:34-37 | a blank or repeated input leaves list and input unchanged |
| BasicInfoStep.Mount | src/components/dashboard/jobs/steps/basicInfoStep.tsx:30-36 | the form starts from the record, absent details as empty text |
| BasicInfoStep.SaveBasicInfo | src/components/dashboard/jobs/steps/basicInfoStep.tsx:38-55 | saved iff `isValid`; title, description and details trimmed, blank details absent, the types copied, every other field unchanged |
| BasicInfoStep.SaveSeesTrimmedTexts | src/components/dashboard/jobs/steps/basicInfoStep.tsx:39-53 | two forms whose texts trim alike and whose types agree save the same record |
| BasicInfoStep.SaveIsStable | src/components/dashboard/jobs/steps/basicInfoStep.tsx:38-53 | reopening the step on the saved record and saving again changes nothing |
| BasicInfoStep.SaveIgnoresPadding | src/components/dashboard/jobs/steps/basicInfoStep.tsx:39-48 | padding around the fields does not change what is saved |
| RequirementsStep.SaveRequirements | src/components/dashboard/jobs/steps/requirementsStep.tsx:56-72 | saved iff both lists are non-empty and the trimmed experience is not; experience trimmed, lists copied, other fields unchanged |
| RequirementsStep.SaveRequirementsStable | src/components/dashboard/jobs/steps/requirementsStep.tsx:56-69 | saving the saved values again changes nothing |
| RequirementsStep.RequirementsForm.constructor | src/components/dashboard/jobs/steps/requirementsStep.tsx:24-30 | the form starts from the record's lists and experience, with empty inputs |
| RequirementsStep.RequirementsForm.Save | src/components/dashboard/jobs/steps/requirementsStep.tsx:56-72 | saved iff `isValid` |
| RequirementsStep.RequirementsForm.AddSkill | src/components/dashboard/jobs/steps/requirementsStep.tsx:32-38 | the skills and their input change as `AddTag`, the rest does not; a well-formed list stays well-formed |
| RequirementsStep.RequirementsForm.RemoveSkill | src/components/dashboard/jobs/steps/requirementsStep.tsx:40-42 | skills become `RemoveTag` of the old list, the rest does not change |
| RequirementsStep.RequirementsForm.AddQualification | src/components/dashboard/jobs/steps/requirementsStep.tsx:44-50 | the same rule on the qualifications |
| RequirementsStep.RequirementsForm.RemoveQualification | src/components/dashboard/jobs/steps/requirementsStep.tsx:52-54 | the same rule on the qualifications |
| CompensationStep.AmountText | src/components/dashboard/jobs/steps/compensationStep.tsx:35-40 | a salary is shown as its text, an absent one as empty |
| CompensationStep.Mount | src/components/dashboard/jobs/steps/compensationStep.tsx:32-51 | the salary toggle starts on iff a salary is truthy; benefits from the record, absent as empty; openings as text |
| CompensationStep.SubmittedAmount | src/components/dashboard/jobs/steps/compensationStep.tsx:70-71 | a salary is sent only with the toggle on and a non-empty field, parsed |
| CompensationStep.SubmittedOpenings | src/components/dashboard/jobs/steps/compensationStep.tsx:75 | the parsed openings, or 1 when the parse gives NaN or 0 |
| CompensationStep.FinalJobData | src/components/dashboard/jobs/steps/compensationStep.tsx:68-76 | the record sent: salaries, benefits (absent when empty), dates (absent when empty), openings; every other field unchanged |
| CompensationStep.ValidOpeningsSubmitted | src/components/dashboard/jobs/steps/compensationStep.tsx:107 | with `isValid` the openings sent are the parsed, positive number |
| CompensationStep.AmountRoundTrip | src/components/dashboard/jobs/steps/compensationStep.tsx:35-40 | a safe-integer salary shown and submitted with the toggle on comes back unchanged |
| CompensationStep.OpeningsRoundTrip | src/components/dashboard/jobs/steps/compensationStep.tsx:51 | safe-integer openings shown and submitted come back unchanged, except 0, which becomes 1 |
| CompensationStep.MountThenSubmit | src/components/dashboard/jobs/steps/compensationStep.tsx:32-76 | submitting an untouched form whose numbers are safe integers reproduces the record's salaries, benefits and openings |
| CompensationStep.CompensationForm.constructor | src/components/dashboard/jobs/steps/compensationStep.tsx:32-51 | the form state is `Mount` of the record |
| CompensationStep.CompensationForm.AddBenefit | src/components/dashboard/jobs/steps/compensationStep.tsx:53-59 | benefits and their input change as `AddTag`, nothing else does |
| CompensationStep.CompensationForm.RemoveBenefit | src/components/dashboard/jobs/steps/compensationStep.tsx:61-63 | benefits become `RemoveTag` of the old list, nothing else changes |
| CreateJobModal.InitialJobDataForms | src/components/dashboard/jobs/createJobModal.tsx:28-46 | the default record cannot pass the first two steps, passes the third, and has no benefits and no salary |
| CreateJobModal.MovesAreAdjacent | src/components/dashboard/jobs/createJobModal.tsx:112-132 | every move goes to a neighbouring step among 1 to 3 |
| CreateJobModal.HighlightedPrefix | src/components/dashboard/jobs/createJobModal.tsx:84-95 | exactly the labels up to the current step are highlighted |
| CreateJobModal.JobWizard.constructor | src/components/dashboard/jobs/createJobModal.tsx:25-46 | the wizard starts at step 1 with the default record |
| CreateJobModal.JobWizard.HandleClose | src/components/dashboard/jobs/createJobModal.tsx:48-75 | ignored while loading; otherwise the parent is told and a reset is scheduled |
| CreateJobModal.JobWizard.ResetTimerFires | src/components/dashboard/jobs/createJobModal.tsx:52-73 | back to step 1 with exactly the default record |
| CreateJobModal.JobWizard.BasicInfoNext | src/components/dashboard/jobs/createJobModal.tsx:112 | a valid form is saved and the wizard moves to step 2; otherwise nothing changes |
| CreateJobModal.JobWizard.RequirementsNext | src/components/dashboard/jobs/createJobModal.tsx:121 | a valid form is saved and the wizard moves to step 3; otherwise nothing changes |
| CreateJobModal.JobWizard.RequirementsBack | src/components/dashboard/jobs/createJobModal.tsx:122 | back to step 1, nothing saved |
| CreateJobModal.JobWizard.CompensationBack | src/components/dashboard/jobs/createJobModal.tsx:132 | back to step 2, nothing saved |
| CreateJobModal.JobWizard.Submit | src/components/dashboard/jobs/steps/compensationStep.tsx:65-105 | sends `FinalJobData` with positive openings; on success the parent is told and the wizard closes; loading is cleared |
| ApplicationDetailsModal.ScoreColorMonotone | src/components/dashboard/jobs/applicationDetailsModal.tsx:79-84 | for non-zero scores: green iff ≥ 80, red iff < 60, and a higher score never gets a lower colour |
| ApplicationDetailsModal.GreyExactlyWhenUnscored | src/components/dashboard/jobs/applicationDetailsModal.tsx:79-84 | grey iff the score is missing or 0 |
| ApplicationDetailsModal.RecommendationBadge | src/components/dashboard/jobs/applicationDetailsModal.tsx:86-99 | the "Unknown" badge iff the recommendation is none of the four known ones |
| ApplicationDetailsModal.KnownBadgesDistinct | src/components/dashboard/jobs/applicationDetailsModal.tsx:86-92 | the four known recommendations get four different labels |
| ApplicationDetailsModal.RecommendationBadgeAsWritten | src/components/dashboard/jobs/applicationDetailsModal.tsx:86-99 | the lookup as written yields a non-badge iff the recommendation names an inherited member |
| ApplicationDetailsModal.AsWrittenAgreesOffPrototype | src/components/dashboard/jobs/applicationDetailsModal.tsx:86-99 | away from the inherited names the lookup as written gives the corrected badge |
| ApplicationDetailsModal.ConstructorRecommendationGetsNoBadge | src/components/dashboard/jobs/applicationDetailsModal.tsx:93-98 | "constructor" gets no badge as written, "Unknown" corrected |
| ApplicationDetailsModal.ShownRecommendation | src/components/dashboard/jobs/applicationDetailsModal.tsx:166-173 | a badge is shown iff the report has a non-empty recommendation, and it is that recommendation's badge |
| ApplicationDetailsModal.ResumePreview | src/components/dashboard/jobs/applicationDetailsModal.tsx:330-351 | shown iff there is a resume link and the text is non-empty; the text itself up to 1000 characters, else its first 1000 followed by "..." |
| ApplicationDetailsModal.PreviewIsBoundedPrefix | src/components/dashboard/jobs/applicationDetailsModal.tsx:350-351 | beside a resume link the preview holds at most 1003 characters and starts as the resume does |
| ApplicationDetailsModal.ActionsForOpenApplications | src/components/dashboard/jobs/applicationDetailsModal.tsx:363-364 | the actions are shown exactly for new, reviewing and invited applications |
| ApplicationDetailsModal.ApplicationDetails.constructor | src/components/dashboard/jobs/applicationDetailsModal.tsx:37-38 | the dialog opens idle with the interview picker hidden |
| ApplicationDetailsModal.ApplicationDetails.HandleReject | src/components/dashboard/jobs/applicationDetailsModal.tsx:39-72 | a request iff there is an application and the user confirms, with the company name; on success the parent refreshes and closes; loading cleared |
| ApplicationDetailsModal.ApplicationDetails.OpenInterviewPicker | src/components/dashboard/jobs/applicationDetailsModal.tsx:369-372 | the shortlist button opens the interview picker |
| ApplicationDetailsModal.ApplicationDetails.InterviewPickerClosed | src/components/dashboard/jobs/applicationDetailsModal.tsx:397 | dismissing the picker only hides it |
| ApplicationDetailsModal.ApplicationDetails.InterviewPickerSucceeded | src/components/dashboard/jobs/applicationDetailsModal.tsx:398-402 | a shortlist hides the picker, refreshes and closes the dialog |
| SelectInterviewModal.CompanyName | src/components/dashboard/jobs/selectInterviewModal.tsx:76 | the organisation's name when non-empty, else "Our Company" |
| SelectInterviewModal.FindInterview | src/components/dashboard/jobs/selectInterviewModal.tsx:62 | the first interview with the id, or none iff no interview has it |
| SelectInterviewModal.InterviewUrlInjective | src/components/dashboard/jobs/selectInterviewModal.tsx:70 | different interviews get different links on the same origin |
| SelectInterviewModal.InterviewPicker.constructor | src/components/dashboard/jobs/selectInterviewModal.tsx:28-30 | the picker opens with no interviews, no selection and no request in flight |
| SelectInterviewModal.InterviewPicker.CanSubmit | src/components/dashboard/jobs/selectInterviewModal.tsx:219-222 | Submit is enabled iff an interview is selected and no request is in flight; `HandleSubmit` only sends from an idle dialog when it was enabled |
| SelectInterviewModal.InterviewPicker.Select | src/components/dashboard/jobs/selectInterviewModal.tsx:151-153 | clicking a listed interview's card selects its id, which `find` then locates in the list; nothing else changes |
| SelectInterviewModal.InterviewPicker.FetchInterviews | src/components/dashboard/jobs/selectInterviewModal.tsx:39-54 | nothing without an organisation; a failed request keeps the list; a missing field empties it |
| SelectInterviewModal.InterviewPicker.HandleClose | src/components/dashboard/jobs/selectInterviewModal.tsx:101-104 | the selection is cleared and the parent told |
| SelectInterviewModal.InterviewPicker.HandleSubmit | src/components/dashboard/jobs/selectInterviewModal.tsx:56-99 | a request iff there is an application and a selection found in the list, carrying origin + "/call/" + id and the company name; a request from an idle dialog means Submit was enabled; on success the parent is told and the picker closes; loading cleared |

## Left out

- The scorer and its prompt are not modelled. The scorer is a parameter returning an optional report. The score weights and recommendation thresholds exist only as prompt text, and nothing checks them.
- Email sending (`email.service.ts`) and the shortlist and reject endpoints are not modelled. The dialogs model only the requests they send.
- Database and storage client semantics are reduced to maps and success flags:
  - the text search of `getAllJobs`, `searchApplications` and `getAllApplications` is left out;
  - row ordering by `created_at` is left out;
  - PDF parsing is left out; the pages are a parameter.
- `updateJob`, `deleteApplication` and `getApplicationsByStatus` are not modelled. They are plain pass-throughs to the store.
- Defaults that the database fills in are assumptions, not source:
  - a new application has status "new" and is not viewed;
  - a new job is active, not archived, and counts 0 applications;
  - store ids are fresh, hence `requires newId !in rows` on the two `Create` methods.
- The `increment_application_count` store procedure's body is not in the source. It is assumed to add one, as the fallback does, without touching `updated_at`.
- The upload is assumed never to replace an existing object (`upsert: false`).
- Dates are left out:
  - deadline and start date are kept as their entered text rather than converted;
  - timestamps are integers;
  - a request reads the clock once, so the temporary folder and the file name share one time.
- The reset timer of the wizard is a pending-reset counter plus `ResetTimerFires`. The 300 ms delay is not modelled.
- React rendering, toasts, axios and loading spinners are left out. So are the picker's `loadingInterviews` flag and the progress bar's width.
- Concurrent requests are left out: double analysis and last-write-wins races.
- ResumePreview: counts characters, where the source's `slice` counts UTF-16 code units. Characters outside the Basic Multilingual Plane are therefore counted differently.
- CompensationStep.SubmittedAmount: a salary that parses to NaN is `None`. The model assumes the request serialises NaN as null.
- Text.IntToString: writes plain decimal, which is `toString` only for safe integers (magnitude at most 2^53 - 1). Larger numbers are written rounded, and from 10^21 in exponent notation ("1e+21", which `parseInt` reads as 1). The round-trip lemmas of the compensation step are therefore stated for safe integers only.
- Text.ParseInt: reads a run of digits as its exact integer, where `parseInt` returns a double. Above 2^53 the source rounds ("9007199254740993" gives 9007199254740992), and past about 309 digits it gives `Infinity`, which the request to create a job sends as `null`. So `CompensationStep.SubmittedAmount`, `CompensationStep.SubmittedOpenings` and `CompensationStep.FinalJobData` agree with the source only for texts whose value is a safe integer.
- ApplicationsService.ApplicationStore.GetById: a read never fails in the model. The source returns null on any query error, so the analysis endpoint's 404 "Application not found" also covers a failed read of an existing row, which the model does not express.
- JobsService.JobStore.GetById: a read never fails in the model. A failed read in the source gives the analysis endpoint's 404 "Job not found" for a job that exists.
- JobsService.JobStore.GetPublicById: a read never fails in the model. A failed read in the source gives the application endpoint's 404 for a job that is open.
- ApplicationsService.ApplicationStore.Update: has no fault result, unlike `UpdateStatus` and `MarkAsViewed`. The analysis write's failure is the `writeOk` flag of its caller instead.
- InterviewsListRoute.ListInterviews: the interview service is not part of this model. It is a parameter whose `None` stands for a thrown error, answered with 500. A service that swallows its error and returns an empty list is its `Some([])` answer, a 200 with no interviews.
- AnalyzeRoute.Analyze: an error thrown while writing the report is not modelled. Only an accepted or ignored write is; the source does not check the write's result.

## Findings

| source | as written | input that shows it | evidently intended | confidence | as-written member | corrected member |
|---|---|---|---|---|---|---|
| src/components/dashboard/jobs/applicationDetailsModal.tsx:86-99 | the badge is looked up in an object literal and falls back to "Unknown" only when the lookup is falsy, so a name inherited from `Object.prototype` yields that inherited member, which has no colour or label | a report whose recommendation is "constructor" (the scorer's output is not checked against the four values) | every recommendation other than the four known ones shows the grey "Unknown" badge | medium; not executed | ApplicationDetailsModal.RecommendationBadgeAsWritten, ApplicationDetailsModal.ConstructorRecommendationGetsNoBadge | ApplicationDetailsModal.RecommendationBadge |
