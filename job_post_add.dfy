/**
 * app/company/job-post-add/page.tsx: a company fills in a job post. Two
 * checkbox groups keep bit masks, the deadline must lie after the moment
 * of submission, and the dialog's button leaves the page only after a
 * success.
 */
module JobPostAddPage {
  import opened Common
  import opened Flags

  const DeadlineMessage := "Başvuru son tarihi bugünden ileri bir tarih olmalıdır!"
  const CreatedMessage := "İş İlanı başarılı şekilde oluşturuldu!"
  const CreateFailedMessage := "İş İlanı oluşturulurken bir hata oluştu!"
  /** The category every post is filed under (line 101). */
  const FixedCategoryId := "39D6E8D9-AFF4-4E8F-436C-08DD0B41BB23"

  /** The two fields the checkbox groups toggle. */
  const MaskFields: set<string> := {"offDays", "requiredEducationLevel"}

  const JobPostKeys: set<string> := {
    "title", "description", "minSalary", "maxSalary", "applicationDeadline", "district", "benefits",
    "offDays", "requiredEducationLevel", "isDisabledFriendly", "jobType", "minExperienceYears",
    "experienceLevel", "requiresDrivingLicense", "minAge", "maxAge"}

  /** The form's initial values (lines 51-68); the deadline starts at the moment the page opens. */
  function InitialJobPost(now: int): (r: map<string, Value>)
    ensures r.Keys == JobPostKeys
    ensures r["offDays"] == Mask(0) && r["requiredEducationLevel"] == Mask(0)
  {
    map["title" := Str(""), "description" := Str(""), "minSalary" := Str(""), "maxSalary" := Str(""),
        "applicationDeadline" := Instant(now), "district" := Str(""), "benefits" := Str(""),
        "offDays" := Mask(0), "requiredEducationLevel" := Mask(0), "isDisabledFriendly" := Bool(false),
        "jobType" := Num(0), "minExperienceYears" := Num(0), "experienceLevel" := Num(0),
        "requiresDrivingLicense" := Bool(false), "minAge" := Str(""), "maxAge" := Str("")]
  }

  /** What jobPostAPI.create receives: the form with the deadline replaced, the company's id and the category. */
  datatype CreatePayload = CreatePayload(fields: map<string, Value>, companyId: Option<string>, categoryId: string)

  /** The form as the page keeps it: every key present and both checkbox fields masks. */
  predicate WellFormed(form: map<string, Value>)
  {
    form.Keys == JobPostKeys && form["offDays"].Mask? && form["requiredEducationLevel"].Mask?
  }

  /** handleCheckboxChange's update (lines 77-82): `prev[field] ^ value` in that one field. */
  function ToggleField(form: map<string, Value>, field: string, flag: bv32): (r: map<string, Value>)
    requires field in form && form[field].Mask?
    ensures r.Keys == form.Keys
    ensures r[field] == Mask(Toggle(form[field].bits, flag))
    ensures forall k :: k in form && k != field ==> r[k] == form[k]
  {
    form[field := Mask(form[field].bits ^ flag)]
  }

  /** Clicking the same checkbox twice gives back the form it started from. */
  lemma ToggleFieldTwice(form: map<string, Value>, field: string, flag: bv32)
    requires field in form && form[field].Mask?
    ensures ToggleField(ToggleField(form, field, flag), field, flag) == form
  {
    var once := ToggleField(form, field, flag);
    ToggleTwice(form[field].bits, flag);
    assert ToggleField(once, field, flag)[field] == form[field];
  }

  /** A box's `checked` test (lines 217 and 235-237). */
  predicate BoxChecked(form: map<string, Value>, field: string, flag: bv32)
    requires field in form && form[field].Mask?
  {
    IsChecked(form[field].bits, flag)
  }

  /** A click flips its own box and no box of another flag or of the other group. */
  lemma ClickFlipsOneBox(form: map<string, Value>, field: string, flag: bv32, otherField: string, other: bv32)
    requires field in form && form[field].Mask? && otherField in form && form[otherField].Mask?
    requires SingleBit(flag) && SingleBit(other)
    ensures BoxChecked(ToggleField(form, field, flag), field, flag) == !BoxChecked(form, field, flag)
    ensures (otherField != field || other != flag) ==>
              BoxChecked(ToggleField(form, field, flag), otherField, other) == BoxChecked(form, otherField, other)
  {
    var toggled := ToggleField(form, field, flag);
    var bits := form[field].bits;
    assert toggled[field].bits == Toggle(bits, flag);
    ToggleFlipsOnlyItsBox(bits, flag, flag);
    if otherField == field {
      ToggleFlipsOnlyItsBox(bits, flag, other);
    } else {
      assert toggled[otherField] == form[otherField];
    }
  }

  class JobPostForm {
    const companyId: Option<string>
    var jobPost: map<string, Value>
    var selectedDate: Option<int>
    var loading: bool
    var showDialog: bool
    var dialogMessage: string
    var creates: seq<CreatePayload>
    var navigations: seq<Target>

    predicate Valid()
      reads this
    {
      WellFormed(jobPost)
    }

    /** The initial state (lines 43-68), opened at `now` by a company whose token gave `companyId`. */
    constructor (companyId: Option<string>, now: int)
      ensures Valid()
      ensures this.companyId == companyId && jobPost == InitialJobPost(now)
      ensures selectedDate == None && !loading && !showDialog && dialogMessage == ""
      ensures creates == [] && navigations == []
    {
      this.companyId := companyId;
      jobPost := InitialJobPost(now);
      selectedDate := None;
      loading := false;
      showDialog := false;
      dialogMessage := "";
      creates := [];
      navigations := [];
    }

    /** handleInputChange (lines 70-75): exactly one non-checkbox field takes the new value. */
    method HandleInputChange(field: string, value: Value)
      requires Valid() && field in JobPostKeys && field !in MaskFields
      modifies this`jobPost
      ensures Valid()
      ensures jobPost.Keys == old(jobPost).Keys && jobPost[field] == value
      ensures forall k :: k in jobPost && k != field ==> jobPost[k] == old(jobPost)[k]
    {
      jobPost := jobPost[field := value];
    }

    /** handleCheckboxChange (lines 77-82) on one of the two checkbox fields. */
    method HandleCheckboxChange(field: string, flag: bv32)
      requires Valid() && field in MaskFields
      modifies this`jobPost
      ensures Valid()
      ensures jobPost == ToggleField(old(jobPost), field, flag)
    {
      jobPost := jobPost[field := Mask(jobPost[field].bits ^ flag)];
    }

    /** The date picker's onDateSelect (line 357). */
    method SelectDate(date: int)
      modifies this`selectedDate
      ensures selectedDate == Some(date)
    {
      selectedDate := Some(date);
    }

    /**
     * handleSubmit (lines 84-113) at the moment `now`. No date, or one not
     * after now, opens the dialog with the deadline message and calls
     * nothing. Otherwise one create call with the payload; the dialog opens
     * with the success or the failure message; loading ends false.
     */
    method HandleSubmit(now: int, outcome: Outcome)
      requires Valid()
      modifies this`loading, this`showDialog, this`dialogMessage, this`creates
      ensures Valid() && showDialog
      ensures selectedDate.None? || selectedDate.value <= now ==>
                dialogMessage == DeadlineMessage && creates == old(creates) && loading == old(loading)
      ensures selectedDate.Some? && selectedDate.value > now ==>
                creates == old(creates) +
                  [CreatePayload(jobPost["applicationDeadline" := Instant(selectedDate.value)], companyId, FixedCategoryId)] &&
                !loading &&
                dialogMessage == (if outcome.Done? then CreatedMessage else CreateFailedMessage)
    {
      if selectedDate.None? || selectedDate.value <= now {
        dialogMessage := DeadlineMessage;
        showDialog := true;
        return;
      }
      loading := true;
      var payload := CreatePayload(jobPost["applicationDeadline" := Instant(selectedDate.value)], companyId, FixedCategoryId);
      creates := creates + [payload];
      if outcome.Done? {
        dialogMessage := CreatedMessage;
      } else {
        dialogMessage := CreateFailedMessage;
      }
      showDialog := true;
      loading := false;
    }

    /** The dialog's Tamam (lines 380-388): close; go to the post list only after a success. */
    method CloseDialog()
      modifies this`showDialog, this`navigations
      ensures !showDialog
      ensures dialogMessage == CreatedMessage ==> navigations == old(navigations) + [PathOnly("/company/job-post")]
      ensures dialogMessage != CreatedMessage ==> navigations == old(navigations)
    {
      showDialog := false;
      if dialogMessage == CreatedMessage {
        navigations := navigations + [PathOnly("/company/job-post")];
      }
    }
  }

  /** A submission the deadline check refuses leaves the page where it is when the dialog is closed. */
  method RefusedSubmitStays(page: JobPostForm, now: int, outcome: Outcome)
    requires page.Valid() && (page.selectedDate.None? || page.selectedDate.value <= now)
    modifies page
    ensures page.creates == old(page.creates) && page.navigations == old(page.navigations)
    ensures !page.showDialog
  {
    page.HandleSubmit(now, outcome);
    page.CloseDialog();
  }
}
