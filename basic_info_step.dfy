/**
 * The first wizard step: title, description, location and employment type.
 * The fields are edited freely; "Next" validates them and writes them back,
 * trimmed, into the wizard's job record.
 */
module BasicInfoStep {
  import opened Wrappers
  import opened Text
  import opened JobTypes

  /** The step's form state. */
  datatype BasicInfoFields = BasicInfoFields(
    title: string,
    description: string,
    locationType: LocationType,
    locationDetails: string,
    employmentType: EmploymentType)

  /** The form as it is first shown for a job record; absent location
      details show as the empty text. */
  function Mount(j: JobInsert): (f: BasicInfoFields)
    ensures f.title == j.title && f.description == j.description
    ensures f.locationType == j.locationType && f.employmentType == j.employmentType
    ensures j.locationDetails.Some? ==> f.locationDetails == j.locationDetails.value
    ensures j.locationDetails.None? ==> f.locationDetails == []
  {
    BasicInfoFields(j.title, j.description, j.locationType,
                    j.locationDetails.GetOr([]), j.employmentType)
  }

  /** `isValid`: the Next button is enabled exactly when this holds. */
  predicate IsValid(f: BasicInfoFields) {
    Truthy(Trim(f.title)) && Truthy(Trim(f.description))
  }

  /**
   * `handleNext`: `None` when the form is not valid (nothing is saved and
   * the wizard does not advance); otherwise the record to save, with the
   * texts trimmed, blank location details dropped and every other field of
   * the job record left as it was.
   */
  function SaveBasicInfo(f: BasicInfoFields, j: JobInsert): (r: Option<JobInsert>)
    ensures r.Some? <==> IsValid(f)
    ensures r.Some? ==> r.value.title == Trim(f.title) && r.value.title != []
    ensures r.Some? ==> r.value.description == Trim(f.description) && r.value.description != []
    ensures r.Some? ==> r.value.locationType == f.locationType && r.value.employmentType == f.employmentType
    ensures r.Some? ==> (r.value.locationDetails.None? <==> AllWhitespace(f.locationDetails))
    ensures r.Some? && r.value.locationDetails.Some? ==> r.value.locationDetails.value == Trim(f.locationDetails)
    ensures r.Some? ==> r.value.(title := j.title, description := j.description,
                                 locationType := j.locationType,
                                 locationDetails := j.locationDetails,
                                 employmentType := j.employmentType) == j
  {
    if !Truthy(Trim(f.title)) || !Truthy(Trim(f.description)) then None
    else
      var details := Trim(f.locationDetails);
      Some(j.(title := Trim(f.title), description := Trim(f.description),
              locationType := f.locationType,
              locationDetails := if Truthy(details) then Some(details) else None,
              employmentType := f.employmentType))
  }

  /** The save sees the texts only through their trimmed forms. */
  lemma SaveSeesTrimmedTexts(f: BasicInfoFields, g: BasicInfoFields, j: JobInsert)
    requires Trim(f.title) == Trim(g.title) && Trim(f.description) == Trim(g.description)
    requires Trim(f.locationDetails) == Trim(g.locationDetails)
    requires f.locationType == g.locationType && f.employmentType == g.employmentType
    ensures SaveBasicInfo(f, j) == SaveBasicInfo(g, j)
  {
  }

  /** Coming back to the step after a successful Next and pressing Next
      again saves exactly the same record. */
  lemma SaveIsStable(f: BasicInfoFields, j: JobInsert)
    requires IsValid(f)
    ensures SaveBasicInfo(Mount(SaveBasicInfo(f, j).value), SaveBasicInfo(f, j).value) == SaveBasicInfo(f, j)
  {
    var r := SaveBasicInfo(f, j).value;
    var g := Mount(r);
    TrimIdempotent(f.title);
    TrimIdempotent(f.description);
    TrimIdempotent(f.locationDetails);
    if r.locationDetails.None? {
      assert Trim(g.locationDetails) == [];
    }
    SaveSeesTrimmedTexts(g, f, r);
    assert SaveBasicInfo(f, r) == Some(r);
  }

  /** Surrounding whitespace never matters to the step. */
  lemma SaveIgnoresPadding(f: BasicInfoFields, j: JobInsert)
    ensures SaveBasicInfo(f.(title := Trim(f.title), description := Trim(f.description),
                             locationDetails := Trim(f.locationDetails)), j)
            == SaveBasicInfo(f, j)
  {
    TrimIdempotent(f.title);
    TrimIdempotent(f.description);
    TrimIdempotent(f.locationDetails);
    SaveSeesTrimmedTexts(f.(title := Trim(f.title), description := Trim(f.description),
                            locationDetails := Trim(f.locationDetails)), f, j);
  }
}
