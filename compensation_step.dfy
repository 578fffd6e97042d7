/**
 * The third wizard step: the optional salary range, the benefits list, the
 * dates and the number of openings, and the record the wizard submits.
 * Dates are kept as the day text the date inputs show.
 */
module CompensationStep {
  import opened Wrappers
  import opened Text
  import opened Seqs
  import opened JobTypes
  import opened TagList

  /** The step's form state; every number is the text typed into its box. */
  datatype CompensationFields = CompensationFields(
    showSalary: bool,
    salaryMin: string,
    salaryMax: string,
    benefits: seq<string>,
    benefitInput: string,
    deadline: string,
    startDate: string,
    openings: string)

  /** A salary bound that shows the salary section: present and non-zero. */
  predicate TruthyAmount(x: Option<int>) {
    x.Some? && x.value != 0
  }

  /** A stored amount as its input box shows it. */
  function AmountText(x: Option<int>): (t: string)
    ensures x.None? <==> t == []
  {
    match x
    case None => []
    case Some(v) => IntToString(v)
  }

  /** The form as first shown for a job record: the salary section is on
      exactly when one of the bounds is non-zero. */
  function Mount(j: JobInsert): (f: CompensationFields)
    ensures f.showSalary <==> TruthyAmount(j.salaryMin) || TruthyAmount(j.salaryMax)
    ensures f.salaryMin == AmountText(j.salaryMin) && f.salaryMax == AmountText(j.salaryMax)
    ensures j.benefits.Some? ==> f.benefits == j.benefits.value
    ensures j.benefits.None? ==> f.benefits == []
    ensures f.benefitInput == [] && f.openings == IntToString(j.openings)
  {
    CompensationFields(
      TruthyAmount(j.salaryMin) || TruthyAmount(j.salaryMax),
      AmountText(j.salaryMin), AmountText(j.salaryMax),
      j.benefits.GetOr([]), [],
      j.deadline.GetOr([]), j.startDate.GetOr([]),
      IntToString(j.openings))
  }

  /** A salary box's value in the submitted record: only with the section
      on and the box filled in; a text that is not a number gives none. */
  function SubmittedAmount(show: bool, text: string): (r: Option<int>)
    ensures !show || text == [] ==> r.None?
    ensures show && text != [] ==> r == ParseInt(text)
  {
    if show && Truthy(text) then ParseInt(text) else None
  }

  /** The openings the submitted record carries: the parsed number, or 1
      when the text is not a number or parses to 0. */
  function SubmittedOpenings(text: string): (n: int)
    ensures n != 0
    ensures ParseInt(text).Some? && ParseInt(text).value != 0 ==> n == ParseInt(text).value
    ensures ParseInt(text).None? || ParseInt(text).value == 0 ==> n == 1
  {
    var p := ParseInt(text);
    if p.Some? && p.value != 0 then p.value else 1
  }

  /** `finalJobData` in `handleSubmit`: the wizard's record with this
      step's fields filled in; an empty benefits list and an empty date
      are sent as absent. */
  function FinalJobData(f: CompensationFields, j: JobInsert): (r: JobInsert)
    ensures r.salaryMin == SubmittedAmount(f.showSalary, f.salaryMin)
    ensures r.salaryMax == SubmittedAmount(f.showSalary, f.salaryMax)
    ensures r.benefits.None? <==> f.benefits == []
    ensures r.benefits.Some? ==> r.benefits.value == f.benefits
    ensures r.deadline.None? <==> f.deadline == []
    ensures r.startDate.None? <==> f.startDate == []
    ensures r.openings == SubmittedOpenings(f.openings)
    ensures r.(salaryMin := j.salaryMin, salaryMax := j.salaryMax, benefits := j.benefits,
               deadline := j.deadline, startDate := j.startDate, openings := j.openings) == j
  {
    j.(salaryMin := SubmittedAmount(f.showSalary, f.salaryMin),
       salaryMax := SubmittedAmount(f.showSalary, f.salaryMax),
       benefits := if |f.benefits| > 0 then Some(f.benefits) else None,
       deadline := if Truthy(f.deadline) then Some(f.deadline) else None,
       startDate := if Truthy(f.startDate) then Some(f.startDate) else None,
       openings := SubmittedOpenings(f.openings))
  }

  /** `isValid`: the openings text parses to a positive number. */
  predicate IsValid(f: CompensationFields) {
    var p := ParseInt(f.openings);
    p.Some? && p.value > 0
  }

  /** A valid form submits exactly the openings typed in. */
  lemma ValidOpeningsSubmitted(f: CompensationFields, j: JobInsert)
    requires IsValid(f)
    ensures FinalJobData(f, j).openings == ParseInt(f.openings).value > 0
  {
  }

  /** A stored amount shown in its box and submitted untouched comes back
      as it was, provided the salary section is on and the amount is a
      safe integer. */
  lemma AmountRoundTrip(show: bool, x: Option<int>)
    requires x.Some? ==> IsSafeInteger(x.value)
    ensures SubmittedAmount(show, AmountText(x)) == if show then x else None
  {
    if x.Some? {
      ParseIntToString(x.value);
    }
  }

  /** The openings shown and submitted untouched come back as they were,
      except that zero becomes one, when they are a safe integer. */
  lemma OpeningsRoundTrip(n: int)
    requires IsSafeInteger(n)
    ensures SubmittedOpenings(IntToString(n)) == if n == 0 then 1 else n
  {
    ParseIntToString(n);
  }

  /**
   * Showing the step for a record and submitting it untouched gives the
   * record back, except that zero-valued or missing salary bounds both
   * become absent when the section starts off, an empty benefits list or
   * date becomes absent, and zero openings become one. The numbers are
   * safe integers, which `toString` writes exactly.
   */
  lemma MountThenSubmit(j: JobInsert)
    requires IsSafeInteger(j.openings)
    requires j.salaryMin.Some? ==> IsSafeInteger(j.salaryMin.value)
    requires j.salaryMax.Some? ==> IsSafeInteger(j.salaryMax.value)
    ensures var r := FinalJobData(Mount(j), j);
      r.openings == (if j.openings == 0 then 1 else j.openings) &&
      (TruthyAmount(j.salaryMin) || TruthyAmount(j.salaryMax) ==>
         r.salaryMin == j.salaryMin && r.salaryMax == j.salaryMax) &&
      (!TruthyAmount(j.salaryMin) && !TruthyAmount(j.salaryMax) ==>
         r.salaryMin.None? && r.salaryMax.None?) &&
      r.benefits == (if j.benefits == Some([]) then None else j.benefits) &&
      r.deadline == (if j.deadline == Some([]) then None else j.deadline) &&
      r.startDate == (if j.startDate == Some([]) then None else j.startDate)
  {
    var f := Mount(j);
    OpeningsRoundTrip(j.openings);
    AmountRoundTrip(f.showSalary, j.salaryMin);
    AmountRoundTrip(f.showSalary, j.salaryMax);
  }

  /** The step's state. */
  class CompensationForm {
    var showSalary: bool
    var salaryMin: string
    var salaryMax: string
    var benefits: seq<string>
    var benefitInput: string
    var deadline: string
    var startDate: string
    var openings: string

    function Fields(): CompensationFields
      reads this
    {
      CompensationFields(showSalary, salaryMin, salaryMax, benefits, benefitInput,
                         deadline, startDate, openings)
    }

    constructor (j: JobInsert)
      ensures Fields() == Mount(j)
    {
      var f := Mount(j);
      showSalary, salaryMin, salaryMax := f.showSalary, f.salaryMin, f.salaryMax;
      benefits, benefitInput := f.benefits, f.benefitInput;
      deadline, startDate, openings := f.deadline, f.startDate, f.openings;
    }

    /** `addBenefit`. */
    method AddBenefit()
      modifies this
      ensures WellFormed(old(benefits)) ==> WellFormed(benefits)
      ensures TagEdit(benefits, benefitInput) == AddTag(TagEdit(old(benefits), old(benefitInput)))
      ensures Fields() == old(Fields()).(benefits := benefits, benefitInput := benefitInput)
    {
      var before := TagEdit(benefits, benefitInput);
      var e := AddTag(before);
      AddTagPreservesWellFormed(before);
      SetBenefits(e.tags, e.input);
    }

    /** Replaces the benefits list and its input box, nothing else. */
    method SetBenefits(tags: seq<string>, input: string)
      modifies this
      ensures benefits == tags && benefitInput == input
      ensures Fields() == old(Fields()).(benefits := tags, benefitInput := input)
    {
      benefits, benefitInput := tags, input;
    }

    /** `removeBenefit`. */
    method RemoveBenefit(benefit: string)
      modifies this
      ensures WellFormed(old(benefits)) ==> WellFormed(benefits)
      ensures benefits == RemoveTag(old(benefits), benefit)
      ensures Fields() == old(Fields()).(benefits := benefits)
    {
      var r := RemoveTag(benefits, benefit);
      RemoveTagPreservesWellFormed(benefits, benefit);
      SetBenefits(r, benefitInput);
    }
  }
}
