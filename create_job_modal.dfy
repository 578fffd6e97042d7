/**
 * The job-creation wizard: three steps (basic information, requirements,
 * compensation) over one job record, with a close that resets the wizard
 * once the closing animation's timer fires.
 */
module CreateJobModal {
  import opened Wrappers
  import opened Text
  import opened JobTypes
  import BasicInfoStep
  import RequirementsStep
  import CompensationStep

  /** The record a fresh or reset wizard starts from. */
  function InitialJobData(organizationId: string, userId: string): (j: JobInsert) {
    JobInsert(organizationId, userId, [], [], Remote, Some([]), FullTime, [], [], [],
              None, None, Some("USD"), Some([]), None, None, 1)
  }

  /** A fresh record cannot leave the first or second step until the user
      types into them, and its openings pass the third step's check. */
  lemma InitialJobDataForms(organizationId: string, userId: string)
    ensures var j := InitialJobData(organizationId, userId);
      j.organizationId == organizationId && j.userId == userId &&
      !BasicInfoStep.IsValid(BasicInfoStep.Mount(j)) &&
      !RequirementsStep.RequirementsValid(j.skills, j.experience, j.qualifications) &&
      CompensationStep.IsValid(CompensationStep.Mount(j)) &&
      CompensationStep.Mount(j).benefits == [] && !CompensationStep.Mount(j).showSalary
  {
    var j := InitialJobData(organizationId, userId);
    ParseIntToString(1);
    assert CompensationStep.Mount(j).openings == IntToString(1);
  }

  /** The only step changes Next and Back make. */
  predicate Moves(from: int, to: int) {
    (from == 1 && to == 2) || (from == 2 && to == 3) || (from == 3 && to == 2) || (from == 2 && to == 1)
  }

  /** Every move goes to a neighbouring step of the three. */
  lemma MovesAreAdjacent(from: int, to: int)
    ensures Moves(from, to) <==> 1 <= from <= 3 && 1 <= to <= 3 && (to == from + 1 || to == from - 1)
  {
  }

  /** Step label `i` of the progress indicator is highlighted. */
  predicate Highlighted(currentStep: int, i: int) {
    currentStep >= i
  }

  /** Exactly the labels up to the current step are highlighted. */
  lemma HighlightedPrefix(currentStep: int)
    requires 1 <= currentStep <= 3
    ensures forall i | 1 <= i <= 3 :: Highlighted(currentStep, i) <==> i <= currentStep
    ensures Highlighted(currentStep, 1)
  {
  }

  /** What the create request reported: success, `success: false`, or an
      error thrown by the request. */
  datatype SubmitOutcome = Created | NotCreated | RequestFailed

  class JobWizard {
    const organizationId: string
    const userId: string
    var currentStep: int
    var loading: bool
    var jobData: JobInsert
    /** Reset timers scheduled by a close and not yet fired. */
    var pendingResets: nat
    /** Calls of the parent's `onClose`. */
    var closeRequests: nat
    /** Calls of the parent's `onJobCreated`. */
    var jobsCreated: nat

    predicate Valid()
      reads this
    {
      1 <= currentStep <= 3
    }

    constructor (organizationId: string, userId: string)
      ensures Valid() && currentStep == 1 && !loading
      ensures jobData == InitialJobData(organizationId, userId)
      ensures this.organizationId == organizationId && this.userId == userId
      ensures pendingResets == 0 && closeRequests == 0 && jobsCreated == 0
    {
      this.organizationId := organizationId;
      this.userId := userId;
      currentStep := 1;
      loading := false;
      jobData := InitialJobData(organizationId, userId);
      pendingResets := 0;
      closeRequests := 0;
      jobsCreated := 0;
    }

    /** `handleClose`: ignored while a submission is in flight; otherwise
        the parent is told to close and a reset is scheduled. */
    method HandleClose()
      modifies this
      ensures old(loading) ==> closeRequests == old(closeRequests) && pendingResets == old(pendingResets)
      ensures !old(loading) ==> closeRequests == old(closeRequests) + 1 && pendingResets == old(pendingResets) + 1
      ensures currentStep == old(currentStep) && jobData == old(jobData)
      ensures loading == old(loading) && jobsCreated == old(jobsCreated)
    {
      if !loading {
        closeRequests := closeRequests + 1;
        pendingResets := pendingResets + 1;
      }
    }

    /** A scheduled reset fires: back to the first step and the initial
        record. */
    method ResetTimerFires()
      requires pendingResets > 0
      modifies this
      ensures Valid() && currentStep == 1
      ensures jobData == InitialJobData(organizationId, userId)
      ensures pendingResets == old(pendingResets) - 1
      ensures loading == old(loading) && closeRequests == old(closeRequests) && jobsCreated == old(jobsCreated)
    {
      currentStep := 1;
      jobData := InitialJobData(organizationId, userId);
      pendingResets := pendingResets - 1;
    }

    /** A step's Next: the parent's record is replaced and the wizard moves
        to `step`. */
    method SaveAndMove(j: JobInsert, step: int)
      requires 1 <= step <= 3
      modifies this
      ensures jobData == j && currentStep == step && Valid()
      ensures loading == old(loading) && pendingResets == old(pendingResets)
      ensures closeRequests == old(closeRequests) && jobsCreated == old(jobsCreated)
    {
      jobData, currentStep := j, step;
    }

    /** Next on the first step: the form is saved and the wizard moves on
        only when it is valid. */
    method BasicInfoNext(form: BasicInfoStep.BasicInfoFields)
      requires currentStep == 1
      modifies this
      ensures Valid() && (currentStep == old(currentStep) || Moves(old(currentStep), currentStep))
      ensures BasicInfoStep.SaveBasicInfo(form, old(jobData)).Some? ==>
                currentStep == 2 && jobData == BasicInfoStep.SaveBasicInfo(form, old(jobData)).value
      ensures BasicInfoStep.SaveBasicInfo(form, old(jobData)).None? ==> currentStep == 1 && jobData == old(jobData)
      ensures loading == old(loading) && pendingResets == old(pendingResets)
      ensures closeRequests == old(closeRequests) && jobsCreated == old(jobsCreated)
    {
      var saved := BasicInfoStep.SaveBasicInfo(form, jobData);
      if saved.Some? {
        SaveAndMove(saved.value, 2);
      }
    }

    /** Next on the second step. */
    method RequirementsNext(form: RequirementsStep.RequirementsForm)
      requires currentStep == 2
      modifies this
      ensures Valid() && (currentStep == old(currentStep) || Moves(old(currentStep), currentStep))
      ensures form.IsValid() ==> currentStep == 3 && jobData == form.Save(old(jobData)).value
      ensures !form.IsValid() ==> currentStep == 2 && jobData == old(jobData)
      ensures loading == old(loading) && pendingResets == old(pendingResets)
      ensures closeRequests == old(closeRequests) && jobsCreated == old(jobsCreated)
    {
      var saved := form.Save(jobData);
      if saved.Some? {
        SaveAndMove(saved.value, 3);
      }
    }

    /** Back on the second step; nothing is saved. */
    method RequirementsBack()
      requires currentStep == 2
      modifies this
      ensures Valid() && Moves(old(currentStep), currentStep) && currentStep == 1
      ensures jobData == old(jobData) && loading == old(loading) && pendingResets == old(pendingResets)
      ensures closeRequests == old(closeRequests) && jobsCreated == old(jobsCreated)
    {
      currentStep := 1;
    }

    /** Back on the third step (disabled while a submission is in flight);
        nothing is saved. */
    method CompensationBack()
      requires currentStep == 3 && !loading
      modifies this
      ensures Valid() && Moves(old(currentStep), currentStep) && currentStep == 2
      ensures jobData == old(jobData) && loading == old(loading) && pendingResets == old(pendingResets)
      ensures closeRequests == old(closeRequests) && jobsCreated == old(jobsCreated)
    {
      currentStep := 2;
    }

    /**
     * `handleSubmit` of the third step, enabled only for a valid form and
     * no submission in flight. The record sent is `FinalJobData`; it is not
     * written back into the wizard. On success the parent is told a job
     * was created and the wizard closes: the close handler the step calls
     * is the one rendered before `loading` was set, so it does not see the
     * submission in flight. `loading` is cleared at the end in every case.
     */
    method Submit(form: CompensationStep.CompensationForm, outcome: SubmitOutcome) returns (sent: JobInsert)
      requires currentStep == 3 && !loading && CompensationStep.IsValid(form.Fields())
      modifies this
      ensures sent == CompensationStep.FinalJobData(form.Fields(), old(jobData))
      ensures sent.openings == ParseInt(form.Fields().openings).value > 0
      ensures !loading && currentStep == 3 && jobData == old(jobData)
      ensures outcome == Created ==>
                jobsCreated == old(jobsCreated) + 1 && closeRequests == old(closeRequests) + 1 &&
                pendingResets == old(pendingResets) + 1
      ensures outcome != Created ==>
                jobsCreated == old(jobsCreated) && closeRequests == old(closeRequests) &&
                pendingResets == old(pendingResets)
    {
      var fields := form.Fields();
      CompensationStep.ValidOpeningsSubmitted(fields, jobData);
      sent := CompensationStep.FinalJobData(fields, jobData);
      loading := true;
      FinishSubmit(outcome == Created);
    }

    /** The end of a submission: on success the parent is told a job was
        created and the close handler rendered while `loading` was still
        false runs; `loading` is cleared. */
    method FinishSubmit(created: bool)
      modifies this
      ensures !loading && currentStep == old(currentStep) && jobData == old(jobData)
      ensures created ==>
                jobsCreated == old(jobsCreated) + 1 && closeRequests == old(closeRequests) + 1 &&
                pendingResets == old(pendingResets) + 1
      ensures !created ==>
                jobsCreated == old(jobsCreated) && closeRequests == old(closeRequests) &&
                pendingResets == old(pendingResets)
    {
      if created {
        jobsCreated := jobsCreated + 1;
        closeRequests := closeRequests + 1;
        pendingResets := pendingResets + 1;
      }
      loading := false;
    }
  }
}
