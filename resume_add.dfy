/**
 * app/user/resume/add/page.tsx: a job seeker writes a resume. The
 * education levels are a checkbox group kept as one bit mask.
 */
module ResumeAddPage {
  import opened Common
  import opened Flags
  import opened Access

  const CreatedMessage := "Özgeçmiş başarıyla oluşturuldu."
  const CreateFailedFallback := "Özgeçmiş oluşturulurken bir hata oluştu."

  /** The form (lines 18-27); the education levels are EducationLevel flags, None being 0. */
  datatype ResumeForm = ResumeForm(resumeName: string, summary: string, education: string, experience: string,
                                   skills: string, languages: string, requiredEducationLevel: bv32,
                                   hobbies: string)

  const EmptyResume := ResumeForm("", "", "", "", "", "", 0, "")

  /** The seven text inputs. */
  datatype TextField = ResumeName | Summary | Education | Experience | Skills | Languages | Hobbies

  /** A text input's onChange: `{...resumeData, field: value}`. */
  function WithText(form: ResumeForm, field: TextField, value: string): (r: ResumeForm)
    ensures r.requiredEducationLevel == form.requiredEducationLevel
    ensures TextOf(r, field) == value
    ensures forall other :: other != field ==> TextOf(r, other) == TextOf(form, other)
  {
    match field
    case ResumeName => form.(resumeName := value)
    case Summary => form.(summary := value)
    case Education => form.(education := value)
    case Experience => form.(experience := value)
    case Skills => form.(skills := value)
    case Languages => form.(languages := value)
    case Hobbies => form.(hobbies := value)
  }

  function TextOf(form: ResumeForm, field: TextField): string
  {
    match field
    case ResumeName => form.resumeName
    case Summary => form.summary
    case Education => form.education
    case Experience => form.experience
    case Skills => form.skills
    case Languages => form.languages
    case Hobbies => form.hobbies
  }

  /** handleEducationLevelChange (lines 75-80): `prev.requiredEducationLevel ^ level`, nothing else. */
  function ToggleLevel(form: ResumeForm, level: bv32): (r: ResumeForm)
    ensures r.requiredEducationLevel == Toggle(form.requiredEducationLevel, level)
    ensures forall f :: TextOf(r, f) == TextOf(form, f)
  {
    form.(requiredEducationLevel := form.requiredEducationLevel ^ level)
  }

  /** Two clicks on the same level give back the form; a click flips only its own box (line 190). */
  lemma ToggleLevelTwice(form: ResumeForm, level: bv32, other: bv32)
    requires SingleBit(level) && SingleBit(other)
    ensures ToggleLevel(ToggleLevel(form, level), level) == form
    ensures IsChecked(ToggleLevel(form, level).requiredEducationLevel, level) ==
              !IsChecked(form.requiredEducationLevel, level)
    ensures other != level ==>
              IsChecked(ToggleLevel(form, level).requiredEducationLevel, other) ==
              IsChecked(form.requiredEducationLevel, other)
  {
    ToggleTwice(form.requiredEducationLevel, level);
    ToggleFlipsOnlyItsBox(form.requiredEducationLevel, level, other);
  }

  /** The failure dialog's text (line 68): the error's message unless it is empty. */
  function FailureText(message: string): (r: string)
    ensures r != ""
    ensures message != "" ==> r == message
  {
    if message != "" then message else CreateFailedFallback
  }

  class ResumeAdd {
    var resumeData: ResumeForm
    var loading: bool
    var dialogOpen: bool
    var dialogMessage: string
    var creates: seq<ResumeForm>
    var navigations: seq<Target>

    /** The initial state (lines 18-30): an empty form with no education level. */
    constructor ()
      ensures resumeData == EmptyResume && resumeData.requiredEducationLevel == 0
      ensures !loading && !dialogOpen && dialogMessage == "" && creates == [] && navigations == []
    {
      resumeData := EmptyResume;
      loading := false;
      dialogOpen := false;
      dialogMessage := "";
      creates := [];
      navigations := [];
    }

    /** The guard effect (lines 33-44): no token goes to the login page, another role to "/". */
    method CheckAccess(token: Option<string>, role: Option<string>)
      modifies this`navigations
      ensures navigations == old(navigations) + Pushes(GuardRedirect(token, role, "/user/login", "JobSeeker"))
    {
      if !Present(token) {
        navigations := navigations + [PathOnly("/user/login")];
        return;
      }
      if role != Some("JobSeeker") {
        navigations := navigations + [PathOnly("/")];
      }
    }

    method EditText(field: TextField, value: string)
      modifies this`resumeData
      ensures resumeData == WithText(old(resumeData), field, value)
    {
      resumeData := WithText(resumeData, field, value);
    }

    method HandleEducationLevelChange(level: bv32)
      modifies this`resumeData
      ensures resumeData == ToggleLevel(old(resumeData), level)
    {
      resumeData := resumeData.(requiredEducationLevel := resumeData.requiredEducationLevel ^ level);
    }

    /**
     * handleFormSubmit (lines 46-73): one create call carrying exactly the
     * eight form fields; the dialog opens with the success text, or the
     * error's own message (the fallback when it is empty).
     */
    method HandleFormSubmit(outcome: Outcome)
      modifies this`loading, this`dialogOpen, this`dialogMessage, this`creates
      ensures creates == old(creates) + [resumeData]
      ensures dialogOpen && !loading
      ensures outcome.Done? ==> dialogMessage == CreatedMessage
      ensures outcome.Failed? ==> dialogMessage == FailureText(outcome.message)
    {
      loading := true;
      var formData := ResumeForm(resumeData.resumeName, resumeData.summary, resumeData.education,
                                 resumeData.experience, resumeData.skills, resumeData.languages,
                                 resumeData.requiredEducationLevel, resumeData.hobbies);
      creates := creates + [formData];
      if outcome.Done? {
        dialogMessage := CreatedMessage;
      } else {
        dialogMessage := if outcome.message != "" then outcome.message else CreateFailedFallback;
      }
      dialogOpen := true;
      loading := false;
    }

    /** The dialog's Tamam (line 235): back to the profile, whatever the message. */
    method Acknowledge()
      modifies this`navigations
      ensures navigations == old(navigations) + [PathOnly("/user/profile")]
    {
      navigations := navigations + [PathOnly("/user/profile")];
    }
  }
}
