/**
 * The public application endpoint: check the form, check that the job is
 * open, store the resume, create the application, screen the resume when
 * it has text, and count the application against the job.
 */
module ApplyRoute {
  import opened Wrappers
  import opened Text
  import opened ApplicationTypes
  import opened JobTypes
  import opened Http
  import opened ApplicationsService
  import opened JobsService
  import opened ResumeUpload
  import opened AnalyzeRoute

  /** The submitted form; a field the form does not carry is `None`. */
  datatype ApplyForm = ApplyForm(
    jobId: Option<string>,
    name: Option<string>,
    email: Option<string>,
    phone: Option<string>,
    coverLetter: Option<string>,
    resume: Option<File>)

  /**
   * Everything the endpoint learns from outside: the time (one reading
   * for the whole request), the PDF's pages (`None` when reading fails),
   * storage's answers, the id the store gives the new row and whether it
   * accepts it, the scorer (`None` covers both no report and a thrown
   * error), whether the report's write is accepted, whether the store
   * procedure that increments the counter is available, and whether the
   * fallback's read and write of the job both succeed.
   */
  datatype ApplyEnv = ApplyEnv(
    now: nat,
    pages: Option<seq<string>>,
    uploadAccepted: bool,
    signedUrl: Option<string>,
    newId: string,
    createAccepted: bool,
    analyse: Analyser,
    writeOk: bool,
    procedureAvailable: bool,
    fallbackOk: bool)

  /** The job's counter goes up: by the store procedure, or by the
      fallback when the procedure is unavailable. */
  predicate CountReached(env: ApplyEnv) {
    env.procedureAvailable || env.fallbackOk
  }

  /** A required field (job, name, email, phone or resume) is missing or
      empty. */
  predicate MissingField(f: ApplyForm) {
    !TruthyOpt(f.jobId) || !TruthyOpt(f.name) || !TruthyOpt(f.email) || !TruthyOpt(f.phone) || f.resume.None?
  }

  /** The folder the resume is uploaded to before the application exists. */
  function TempId(now: nat): (id: string)
    ensures |id| > 5 && id[..5] == "temp-" && id[5..] == IntToString(now)
  {
    "temp-" + IntToString(now)
  }

  /** The application to create: an empty text or cover letter is stored
      as absent, and no report, score or status is given. */
  function ApplicationPayload(f: ApplyForm, url: string, text: string): (p: ApplicationInsert)
    requires !MissingField(f)
    ensures p.jobId == f.jobId.value && p.name == f.name.value && p.email == f.email.value
    ensures p.phone == f.phone.value && p.resumeUrl == url
    ensures p.resumeText.None? <==> text == []
    ensures p.resumeText.Some? ==> p.resumeText.value == text
    ensures p.coverLetter.None? <==> !TruthyOpt(f.coverLetter)
    ensures p.atsAnalysis.None? && p.atsScore.None? && p.status.None?
  {
    ApplicationInsert(f.jobId.value, f.name.value, f.email.value, f.phone.value, url,
                      if Truthy(text) then Some(text) else None,
                      if TruthyOpt(f.coverLetter) then f.coverLetter else None,
                      None, None, None)
  }

  /** The screening report, if the resume has any non-blank text and the
      scorer answers. */
  function Screening(text: string, j: Job, analyse: Analyser): (r: Option<Analysis>)
    ensures AllWhitespace(text) ==> r.None?
    ensures !AllWhitespace(text) ==> r == analyse(RequestFor(text, j))
  {
    if Trim(text) != [] then analyse(RequestFor(text, j)) else None
  }

  /** The row the request leaves behind: the created application, with the
      screening report and its score when there is one and it was written. */
  function StoredApplication(f: ApplyForm, url: string, text: string, j: Job, env: ApplyEnv): (a: Application)
    requires !MissingField(f)
    ensures a.id == env.newId && a.jobId == f.jobId.value && a.status == New && !a.isViewed
    ensures a.resumeUrl == url && (a.resumeText.None? <==> text == [])
    ensures a.atsScore.Some? <==> env.writeOk && Screening(text, j, env.analyse).Some?
    ensures a.atsScore.Some? ==> a.atsAnalysis == Screening(text, j, env.analyse) &&
                                 a.atsScore.value == a.atsAnalysis.value.overallScore
    ensures a.atsScore.None? ==> a.atsAnalysis.None?
  {
    var created := FromInsert(ApplicationPayload(f, url, text), env.newId, env.now);
    var report := Screening(text, j, env.analyse);
    if env.writeOk && report.Some? then ApplyUpdate(created, AnalysisUpdate(report.value), env.now)
    else created
  }

  /** A blank resume never reaches the scorer: the row is the same for any
      scorer. */
  lemma BlankResumeNotScreened(f: ApplyForm, url: string, text: string, j: Job, env: ApplyEnv, other: Analyser)
    requires !MissingField(f) && AllWhitespace(text)
    ensures StoredApplication(f, url, text, j, env) == StoredApplication(f, url, text, j, env.(analyse := other))
  {
  }

  /** Where the resume is stored: the temporary folder, the time and the
      file's name. */
  function ResumePath(f: ApplyForm, env: ApplyEnv): string
    requires !MissingField(f)
  {
    StoragePath(Some(TempId(env.now)), env.now, f.resume.value.name)
  }

  /** The upload's answer to this request. */
  function UploadFor(f: ApplyForm, env: ApplyEnv, objects: map<string, File>): (r: UploadResult)
    requires !MissingField(f)
    ensures r.Uploaded? ==> r.path == ResumePath(f, env)
  {
    UploadOutcome(f.resume, Some(TempId(env.now)), env.pages, env.now,
                  env.uploadAccepted && ResumePath(f, env) !in objects, env.signedUrl)
  }

  /**
   * Storage after the upload: the resume is kept under its temporary path
   * when it passes the file checks and storage accepts the new path,
   * whatever happens to the request afterwards; nothing removes it again.
   */
  function ObjectsAfterUpload(f: ApplyForm, env: ApplyEnv, objects: map<string, File>): (r: map<string, File>)
    requires !MissingField(f)
    ensures UploadFor(f, env, objects).Uploaded? ==> r == objects[ResumePath(f, env) := f.resume.value]
    ensures r == objects || r == objects[ResumePath(f, env) := f.resume.value]
  {
    if FileError(f.resume).None? && env.uploadAccepted && ResumePath(f, env) !in objects
    then objects[ResumePath(f, env) := f.resume.value]
    else objects
  }

  /**
   * `POST` of the application form, over the three stores. Each early
   * exit is stated with what it leaves untouched. Once the upload is
   * tried, storage holds `ObjectsAfterUpload`, also when the request then
   * fails. On success the new row is `StoredApplication`, and the job's
   * counter has gone up by one unless both ways of counting failed, which
   * the answer does not reveal.
   */
  method SubmitApplication(apps: ApplicationStore, jobs: JobStore, bucket: Bucket, form: ApplyForm, env: ApplyEnv)
    returns (response: Response)
    requires env.newId !in apps.rows
    modifies apps, jobs, bucket
    ensures MissingField(form) ==>
              response == Error(400, "Missing required fields") &&
              apps.rows == old(apps.rows) && jobs.rows == old(jobs.rows) && bucket.objects == old(bucket.objects)
    ensures !MissingField(form) && !(form.jobId.value in old(jobs.rows) && IsPublic(old(jobs.rows)[form.jobId.value])) ==>
              response == Error(404, "Job not found or no longer active") &&
              apps.rows == old(apps.rows) && jobs.rows == old(jobs.rows) && bucket.objects == old(bucket.objects)
    ensures !MissingField(form) && form.jobId.value in old(jobs.rows) && IsPublic(old(jobs.rows)[form.jobId.value]) ==>
              var jobId := form.jobId.value;
              var job := old(jobs.rows)[jobId];
              var upload := UploadFor(form, env, old(bucket.objects));
              bucket.objects == ObjectsAfterUpload(form, env, old(bucket.objects)) &&
              (upload.UploadFailed? ==>
                 response == Error(500, upload.error) && apps.rows == old(apps.rows) && jobs.rows == old(jobs.rows)) &&
              (upload.Uploaded? && !env.createAccepted ==>
                 response == Error(500, "Failed to create application") &&
                 apps.rows == old(apps.rows) && jobs.rows == old(jobs.rows)) &&
              (upload.Uploaded? && env.createAccepted ==>
                 response == Response(200, SubmittedBody(env.newId, "Application submitted successfully")) &&
                 apps.rows == old(apps.rows)[env.newId := StoredApplication(form, upload.url, upload.text, job, env)] &&
                 (CountReached(env) ==>
                    jobId in jobs.rows && jobs.rows == old(jobs.rows)[jobId := jobs.rows[jobId]] &&
                    jobs.rows[jobId].applicationCount == Some(CountOrZero(job) + 1)) &&
                 (!CountReached(env) ==> jobs.rows == old(jobs.rows)))
  {
    if MissingField(form) {
      return Error(400, "Missing required fields");
    }
    var jobId := form.jobId.value;
    var found := jobs.GetPublicById(jobId);
    if found.None? {
      return Error(404, "Job not found or no longer active");
    }
    response := UploadAndCreate(apps, jobs, bucket, form, env, found.value);
  }

  /** The steps once the job is known to be open: store the resume in a
      temporary folder, then create, screen and count. */
  method UploadAndCreate(apps: ApplicationStore, jobs: JobStore, bucket: Bucket, form: ApplyForm, env: ApplyEnv,
                         job: Job)
    returns (response: Response)
    requires !MissingField(form) && env.newId !in apps.rows
    requires form.jobId.value in jobs.rows && jobs.rows[form.jobId.value] == job
    modifies apps, jobs, bucket
    ensures var jobId := form.jobId.value;
            var upload := UploadFor(form, env, old(bucket.objects));
            bucket.objects == ObjectsAfterUpload(form, env, old(bucket.objects)) &&
            (upload.UploadFailed? ==>
               response == Error(500, upload.error) && apps.rows == old(apps.rows) && jobs.rows == old(jobs.rows)) &&
            (upload.Uploaded? && !env.createAccepted ==>
               response == Error(500, "Failed to create application") &&
               apps.rows == old(apps.rows) && jobs.rows == old(jobs.rows)) &&
            (upload.Uploaded? && env.createAccepted ==>
               response == Response(200, SubmittedBody(env.newId, "Application submitted successfully")) &&
               apps.rows == old(apps.rows)[env.newId := StoredApplication(form, upload.url, upload.text, job, env)] &&
               (CountReached(env) ==>
                  jobId in jobs.rows && jobs.rows == old(jobs.rows)[jobId := jobs.rows[jobId]] &&
                  jobs.rows[jobId].applicationCount == Some(CountOrZero(job) + 1)) &&
               (!CountReached(env) ==> jobs.rows == old(jobs.rows)))
  {
    var tempId := TempId(env.now);
    var upload := bucket.UploadResume(form.resume, Some(tempId), env.pages, env.now,
                                      env.uploadAccepted, env.signedUrl);
    assert upload == UploadFor(form, env, old(bucket.objects));
    if upload.UploadFailed? {
      return Error(500, if Truthy(upload.error) then upload.error else "Failed to upload resume");
    }
    response := CreateAndScreen(apps, jobs, form, env, job, upload.url, upload.text);
  }

  /** The steps after the upload: create the row, screen the resume when
      it has non-blank text, and count the application. */
  method CreateAndScreen(apps: ApplicationStore, jobs: JobStore, form: ApplyForm, env: ApplyEnv,
                         job: Job, url: string, text: string)
    returns (response: Response)
    requires !MissingField(form) && env.newId !in apps.rows
    requires form.jobId.value in jobs.rows && jobs.rows[form.jobId.value] == job
    modifies apps, jobs
    ensures !env.createAccepted ==>
              response == Error(500, "Failed to create application") &&
              apps.rows == old(apps.rows) && jobs.rows == old(jobs.rows)
    ensures env.createAccepted ==>
              var jobId := form.jobId.value;
              response == Response(200, SubmittedBody(env.newId, "Application submitted successfully")) &&
              apps.rows == old(apps.rows)[env.newId := StoredApplication(form, url, text, job, env)] &&
              (CountReached(env) ==>
                 jobId in jobs.rows && jobs.rows == old(jobs.rows)[jobId := jobs.rows[jobId]] &&
                 jobs.rows[jobId].applicationCount == Some(CountOrZero(job) + 1)) &&
              (!CountReached(env) ==> jobs.rows == old(jobs.rows))
  {
    var created := CreateScreened(apps, form, env, job, url, text);
    if !created {
      return Error(500, "Failed to create application");
    }
    jobs.IncrementApplicationCount(form.jobId.value, env.procedureAvailable, env.fallbackOk, env.now);
    response := Response(200, SubmittedBody(env.newId, "Application submitted successfully"));
  }

  /** Creating the row and screening it: when the store accepts the row,
      what it holds afterwards is `StoredApplication`. */
  method CreateScreened(apps: ApplicationStore, form: ApplyForm, env: ApplyEnv, job: Job, url: string, text: string)
    returns (created: bool)
    requires !MissingField(form) && env.newId !in apps.rows
    modifies apps
    ensures created == env.createAccepted
    ensures created ==> apps.rows == old(apps.rows)[env.newId := StoredApplication(form, url, text, job, env)]
    ensures !created ==> apps.rows == old(apps.rows)
  {
    var row := apps.Create(ApplicationPayload(form, url, text), env.newId, env.now, env.createAccepted);
    created := row.Some?;
    if created {
      ghost var before := apps.rows;
      ScreenCreated(apps, row.value, job, text, env);
      ghost var stored := StoredApplication(form, url, text, job, env);
      assert apps.rows[env.newId] == stored;
      assert apps.rows == before[env.newId := stored];
      UpdateTwice(old(apps.rows), env.newId, row.value, stored);
    }
  }

  /** The screening step: only a resume with non-blank text is sent to the
      scorer, and a report it returns is written onto the new row. */
  method ScreenCreated(apps: ApplicationStore, created: Application, job: Job, text: string, env: ApplyEnv)
    requires created.id in apps.rows
    modifies apps
    ensures var report := Screening(text, job, env.analyse);
            apps.rows == old(apps.rows)[created.id :=
              if env.writeOk && report.Some? then ApplyUpdate(old(apps.rows)[created.id], AnalysisUpdate(report.value), env.now)
              else old(apps.rows)[created.id]]
  {
    if Truthy(text) && Trim(text) != [] {
      var report := env.analyse(RequestFor(text, job));
      if report.Some? && env.writeOk {
        var _ := apps.Update(AnalysisUpdate(report.value), created.id, env.now);
      }
    } else {
      assert Trim(text) == [];
    }
  }

  /** A second write to the same key hides the first. */
  lemma UpdateTwice<K, V>(m: map<K, V>, k: K, a: V, b: V)
    ensures m[k := a][k := b] == m[k := b]
  {
  }
}
