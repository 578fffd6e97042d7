/**
 * The second wizard step: the skills and qualifications lists with their
 * input boxes, and the experience text.
 */
module RequirementsStep {
  import opened Wrappers
  import opened Text
  import opened Seqs
  import opened JobTypes
  import opened TagList

  /** `isValid` on plain values: at least one skill, some experience once
      trimmed, and at least one qualification. */
  predicate RequirementsValid(skills: seq<string>, experience: string, qualifications: seq<string>) {
    |skills| > 0 && Truthy(Trim(experience)) && |qualifications| > 0
  }

  /** `handleNext` on plain values: `None` when invalid (nothing saved, no
      advance); otherwise the job record with both lists and the trimmed
      experience, every other field as it was. */
  function SaveRequirements(skills: seq<string>, experience: string, qualifications: seq<string>,
                            j: JobInsert): (r: Option<JobInsert>)
    ensures r.Some? <==> RequirementsValid(skills, experience, qualifications)
    ensures r.Some? ==> r.value.skills == skills && r.value.qualifications == qualifications
    ensures r.Some? ==> r.value.experience == Trim(experience) && r.value.experience != []
    ensures r.Some? ==> r.value.(skills := j.skills, experience := j.experience,
                                 qualifications := j.qualifications) == j
  {
    if |skills| == 0 || !Truthy(Trim(experience)) || |qualifications| == 0 then None
    else Some(j.(skills := skills, experience := Trim(experience), qualifications := qualifications))
  }

  /** Returning to the step after a successful Next and pressing Next again
      saves the same record. */
  lemma SaveRequirementsStable(skills: seq<string>, experience: string, qualifications: seq<string>,
                               j: JobInsert)
    requires RequirementsValid(skills, experience, qualifications)
    ensures var s := SaveRequirements(skills, experience, qualifications, j).value;
            SaveRequirements(s.skills, s.experience, s.qualifications, s) == Some(s)
  {
    TrimIdempotent(experience);
  }

  /** The step's form state. */
  class RequirementsForm {
    var skills: seq<string>
    var skillInput: string
    var experience: string
    var qualifications: seq<string>
    var qualificationInput: string

    /** The form as first shown: the record's lists and experience, empty
        input boxes. */
    constructor (j: JobInsert)
      ensures skills == j.skills && experience == j.experience && qualifications == j.qualifications
      ensures skillInput == [] && qualificationInput == []
      ensures WellFormed(j.skills) && WellFormed(j.qualifications) ==> Valid()
    {
      skills := j.skills;
      skillInput := [];
      experience := j.experience;
      qualifications := j.qualifications;
      qualificationInput := [];
    }

    /** Both lists are duplicate-free and hold only trimmed, non-empty
        entries; every add and remove keeps this. */
    predicate Valid()
      reads this
    {
      WellFormed(skills) && WellFormed(qualifications)
    }

    predicate IsValid()
      reads this
    {
      RequirementsValid(skills, experience, qualifications)
    }

    /** `handleNext`. */
    function Save(j: JobInsert): (r: Option<JobInsert>)
      reads this
      ensures r.Some? <==> IsValid()
    {
      SaveRequirements(skills, experience, qualifications, j)
    }

    /** `addSkill`. */
    method AddSkill()
      modifies this
      ensures old(Valid()) ==> Valid()
      ensures TagEdit(skills, skillInput) == AddTag(TagEdit(old(skills), old(skillInput)))
      ensures experience == old(experience) && qualifications == old(qualifications)
      ensures qualificationInput == old(qualificationInput)
    {
      var before := TagEdit(skills, skillInput);
      var e := AddTag(before);
      AddTagPreservesWellFormed(before);
      SetSkills(e.tags, e.input);
    }

    /** Replaces the skills list and its input box, nothing else. */
    method SetSkills(tags: seq<string>, input: string)
      modifies this
      ensures skills == tags && skillInput == input
      ensures experience == old(experience) && qualifications == old(qualifications)
      ensures qualificationInput == old(qualificationInput)
    {
      skills, skillInput := tags, input;
    }

    /** `removeSkill`. */
    method RemoveSkill(skill: string)
      modifies this
      ensures old(Valid()) ==> Valid()
      ensures skills == RemoveTag(old(skills), skill)
      ensures skillInput == old(skillInput) && experience == old(experience)
      ensures qualifications == old(qualifications) && qualificationInput == old(qualificationInput)
    {
      var r := RemoveTag(skills, skill);
      RemoveTagPreservesWellFormed(skills, skill);
      SetSkills(r, skillInput);
    }

    /** `addQualification`. */
    method AddQualification()
      modifies this
      ensures old(Valid()) ==> Valid()
      ensures TagEdit(qualifications, qualificationInput)
              == AddTag(TagEdit(old(qualifications), old(qualificationInput)))
      ensures skills == old(skills) && skillInput == old(skillInput) && experience == old(experience)
    {
      var before := TagEdit(qualifications, qualificationInput);
      var e := AddTag(before);
      AddTagPreservesWellFormed(before);
      SetQualifications(e.tags, e.input);
    }

    /** Replaces the qualifications list and its input box, nothing else. */
    method SetQualifications(tags: seq<string>, input: string)
      modifies this
      ensures qualifications == tags && qualificationInput == input
      ensures skills == old(skills) && skillInput == old(skillInput) && experience == old(experience)
    {
      qualifications, qualificationInput := tags, input;
    }

    /** `removeQualification`. */
    method RemoveQualification(qualification: string)
      modifies this
      ensures old(Valid()) ==> Valid()
      ensures qualifications == RemoveTag(old(qualifications), qualification)
      ensures skills == old(skills) && skillInput == old(skillInput) && experience == old(experience)
      ensures qualificationInput == old(qualificationInput)
    {
      var r := RemoveTag(qualifications, qualification);
      RemoveTagPreservesWellFormed(qualifications, qualification);
      SetQualifications(r, qualificationInput);
    }
  }
}
