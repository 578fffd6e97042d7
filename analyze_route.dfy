/**
 * The application-analysis endpoint: a stored report is served from the
 * application record; otherwise the scorer is asked, and its report is
 * stored with the report's overall score.
 */
module AnalyzeRoute {
  import opened Wrappers
  import opened Text
  import opened ApplicationTypes
  import opened JobTypes
  import opened Http
  import opened ApplicationsService
  import opened JobsService

  /** What the scorer is asked about a resume for a job. */
  function RequestFor(resumeText: string, j: Job): (q: AnalysisRequest) {
    AnalysisRequest(resumeText, j.posting.description, j.posting.skills,
                    j.posting.experience, j.posting.qualifications)
  }

  /** A stored report is served as it is only when the score stored with it
      is truthy, that is, not zero. */
  predicate IsCached(a: Application) {
    a.atsAnalysis.Some? && a.atsScore.Some? && a.atsScore.value != 0
  }

  /** The response and the application table after the request. */
  datatype Outcome = Outcome(response: Response, apps: map<string, Application>)

  /**
   * The endpoint as a function of the request's `applicationId`, the two
   * tables, the scorer, whether the store accepts the write (`writeOk`;
   * the endpoint does not look at the result) and the time.
   */
  function Analyze(applicationId: Option<string>, apps: map<string, Application>, jobs: map<string, Job>,
                   analyse: Analyser, writeOk: bool, now: int): (o: Outcome)
    ensures !TruthyOpt(applicationId) ==>
              o == Outcome(Error(400, "Application ID is required"), apps)
    ensures TruthyOpt(applicationId) && applicationId.value !in apps ==>
              o == Outcome(Error(404, "Application not found"), apps)
    ensures TruthyOpt(applicationId) && applicationId.value in apps && IsCached(apps[applicationId.value]) ==>
              var a := apps[applicationId.value];
              o == Outcome(Response(200, AnalysisBody(a.atsAnalysis.value, a.atsScore.value, true)), apps)
    ensures TruthyOpt(applicationId) && applicationId.value in apps && !IsCached(apps[applicationId.value]) ==>
              var a := apps[applicationId.value];
              (a.jobId !in jobs ==> o == Outcome(Error(404, "Job not found"), apps)) &&
              (a.jobId in jobs && !TruthyOpt(a.resumeText) ==>
                 o == Outcome(Error(400, "Resume text not available for analysis"), apps))
    ensures TruthyOpt(applicationId) && applicationId.value in apps && !IsCached(apps[applicationId.value]) &&
            apps[applicationId.value].jobId in jobs && TruthyOpt(apps[applicationId.value].resumeText) ==>
              var id := applicationId.value;
              var a := apps[id];
              var answer := analyse(RequestFor(a.resumeText.value, jobs[a.jobId]));
              (answer.None? ==> o == Outcome(Error(500, "Failed to analyze resume"), apps)) &&
              (answer.Some? ==>
                 o.response == Response(200, AnalysisBody(answer.value, answer.value.overallScore, false)) &&
                 (writeOk ==> o.apps == apps[id := ApplyUpdate(a, AnalysisUpdate(answer.value), now)]) &&
                 (!writeOk ==> o.apps == apps))
    ensures o.response.status == 200 <==>
              TruthyOpt(applicationId) && applicationId.value in apps &&
              (IsCached(apps[applicationId.value]) ||
               (apps[applicationId.value].jobId in jobs &&
                TruthyOpt(apps[applicationId.value].resumeText) &&
                analyse(RequestFor(apps[applicationId.value].resumeText.value,
                                   jobs[apps[applicationId.value].jobId])).Some?))
  {
    if !TruthyOpt(applicationId) then Outcome(Error(400, "Application ID is required"), apps)
    else
      var id := applicationId.value;
      if id !in apps then Outcome(Error(404, "Application not found"), apps)
      else
        var a := apps[id];
        if IsCached(a) then Outcome(Response(200, AnalysisBody(a.atsAnalysis.value, a.atsScore.value, true)), apps)
        else if a.jobId !in jobs then Outcome(Error(404, "Job not found"), apps)
        else if !TruthyOpt(a.resumeText) then Outcome(Error(400, "Resume text not available for analysis"), apps)
        else
          match analyse(RequestFor(a.resumeText.value, jobs[a.jobId]))
          case None => Outcome(Error(500, "Failed to analyze resume"), apps)
          case Some(r) =>
            var stored := if writeOk then apps[id := ApplyUpdate(a, AnalysisUpdate(r), now)] else apps;
            Outcome(Response(200, AnalysisBody(r, r.overallScore, false)), stored)
  }

  /** A cached answer does not depend on the scorer, and writes nothing. */
  lemma CachedIgnoresScorer(id: string, apps: map<string, Application>, jobs: map<string, Job>,
                            f: Analyser, g: Analyser, w1: bool, w2: bool, t1: int, t2: int)
    requires id in apps && IsCached(apps[id])
    ensures Analyze(Some(id), apps, jobs, f, w1, t1) == Analyze(Some(id), apps, jobs, g, w2, t2)
    ensures Analyze(Some(id), apps, jobs, f, w1, t1).apps == apps
  {
  }

  /** Without resume text the scorer is never consulted. */
  lemma NoResumeTextIgnoresScorer(id: string, apps: map<string, Application>, jobs: map<string, Job>,
                                  f: Analyser, g: Analyser, w: bool, t: int)
    requires id != [] && id in apps && !IsCached(apps[id]) && apps[id].jobId in jobs
    requires !TruthyOpt(apps[id].resumeText)
    ensures Analyze(Some(id), apps, jobs, f, w, t) == Analyze(Some(id), apps, jobs, g, w, t)
    ensures Analyze(Some(id), apps, jobs, f, w, t).response == Error(400, "Resume text not available for analysis")
  {
  }

  /**
   * After a successful uncached call whose report has a non-zero overall
   * score and whose write was accepted, asking again serves the same
   * report from the cache, whatever the scorer would now say.
   */
  lemma RepeatIsCached(id: string, apps: map<string, Application>, jobs: map<string, Job>,
                       f: Analyser, g: Analyser, t1: int, w2: bool, t2: int)
    requires id in apps
    requires var first := Analyze(Some(id), apps, jobs, f, true, t1);
             first.response.status == 200 && first.response.body.score != 0
    ensures var first := Analyze(Some(id), apps, jobs, f, true, t1);
            var second := Analyze(Some(id), first.apps, jobs, g, w2, t2);
            second.response == first.response.(body := first.response.body.(cached := true)) &&
            second.apps == first.apps
  {
    var a := apps[id];
    if !IsCached(a) {
      var r := f(RequestFor(a.resumeText.value, jobs[a.jobId])).value;
      AnalysisUpdateTouchesOnlyReport(a, r, t1);
    }
  }

  /** A stored report whose score is 0 is not served: the scorer is asked
      again, and its failure now fails the request. */
  lemma ZeroScoreIsReanalysed(id: string, apps: map<string, Application>, jobs: map<string, Job>,
                              w: bool, t: int)
    requires id != [] && id in apps && apps[id].atsAnalysis.Some? && apps[id].atsScore == Some(0)
    requires apps[id].jobId in jobs && TruthyOpt(apps[id].resumeText)
    ensures Analyze(Some(id), apps, jobs, _ => None, w, t).response == Error(500, "Failed to analyze resume")
  {
  }

  /** The endpoint over the stores; it computes exactly `Analyze`. */
  method HandleAnalyze(applicationId: Option<string>, apps: ApplicationStore, jobs: JobStore,
                       analyse: Analyser, writeOk: bool, now: int) returns (response: Response)
    modifies apps
    ensures Outcome(response, apps.rows) == Analyze(applicationId, old(apps.rows), jobs.rows, analyse, writeOk, now)
  {
    if !TruthyOpt(applicationId) {
      return Error(400, "Application ID is required");
    }
    var id := applicationId.value;
    var application := apps.GetById(id);
    if application.None? {
      return Error(404, "Application not found");
    }
    var a := application.value;
    if a.atsAnalysis.Some? && a.atsScore.Some? && a.atsScore.value != 0 {
      return Response(200, AnalysisBody(a.atsAnalysis.value, a.atsScore.value, true));
    }
    var job := jobs.GetById(a.jobId);
    if job.None? {
      return Error(404, "Job not found");
    }
    if !TruthyOpt(a.resumeText) {
      return Error(400, "Resume text not available for analysis");
    }
    var analysis := analyse(RequestFor(a.resumeText.value, job.value));
    if analysis.None? {
      return Error(500, "Failed to analyze resume");
    }
    var r := analysis.value;
    if writeOk {
      var _ := apps.Update(AnalysisUpdate(r), id, now);
    }
    response := Response(200, AnalysisBody(r, r.overallScore, false));
  }
}
