/**
 * components/UserRegister.tsx: the job seeker's registration form. The
 * password must be typed twice the same; the confirmation never leaves
 * the page.
 */
module UserRegister {
  import opened Common

  const MismatchMessage := "Parolalar eşleşmiyor!"

  /** The named inputs of the form (lines 32-40); the district has its own select. */
  const RegisterKeys: set<string> := {"fullName", "tcKimlik", "email", "phone", "district", "password", "confirmPassword"}

  const EmptyRegisterForm: map<string, string> := map[
    "fullName" := "", "tcKimlik" := "", "email" := "", "phone" := "", "district" := "",
    "password" := "", "confirmPassword" := ""]

  /** What userAPI.create receives (lines 68-76): seven fields, with no confirmation among them. */
  datatype UserPayload = UserPayload(fullName: string, tcKimlik: string, email: string, phone: string,
                                     birthDate: Value, district: string, password: string)

  /** `selectedDate?.toISOString() || ""`: the picked instant, or "" when none was picked. */
  function BirthDateOf(selectedDate: Option<int>): (r: Value)
    ensures selectedDate.None? <==> r == Str("")
    ensures selectedDate.Some? ==> r == Instant(selectedDate.value)
  {
    if selectedDate.Some? then Instant(selectedDate.value) else Str("")
  }

  /** The payload built from a well-formed form and the picked date. */
  function PayloadOf(form: map<string, string>, selectedDate: Option<int>): (r: UserPayload)
    requires form.Keys == RegisterKeys
    ensures r.password == form["password"] && r.email == form["email"] && r.fullName == form["fullName"]
    ensures r.tcKimlik == form["tcKimlik"] && r.phone == form["phone"] && r.district == form["district"]
    ensures r.birthDate == BirthDateOf(selectedDate)
  {
    UserPayload(form["fullName"], form["tcKimlik"], form["email"], form["phone"], BirthDateOf(selectedDate),
                form["district"], form["password"])
  }

  /**
   * The confirmation's only role: two forms that differ only in it give the
   * same payload.
   */
  lemma ConfirmationNotSent(form: map<string, string>, selectedDate: Option<int>, confirm: string)
    requires form.Keys == RegisterKeys
    ensures PayloadOf(form["confirmPassword" := confirm], selectedDate) == PayloadOf(form, selectedDate)
  {
  }

  class RegisterForm {
    var formData: map<string, string>
    var selectedDate: Option<int>
    var errorMessage: Option<string>
    var creates: seq<UserPayload>
    var navigations: seq<Target>

    predicate Valid()
      reads this
    {
      formData.Keys == RegisterKeys
    }

    /** The initial state (lines 29-40). */
    constructor ()
      ensures Valid() && formData == EmptyRegisterForm
      ensures selectedDate == None && errorMessage == None && creates == [] && navigations == []
    {
      formData := EmptyRegisterForm;
      selectedDate := None;
      errorMessage := None;
      creates := [];
      navigations := [];
    }

    /** handleInputChange (lines 42-48): the input named `name` takes the value; no other field changes. */
    method HandleInputChange(name: string, value: string)
      requires Valid() && name in RegisterKeys
      modifies this`formData
      ensures Valid() && formData[name] == value
      ensures forall k :: k in RegisterKeys && k != name ==> formData[k] == old(formData)[k]
    {
      formData := formData[name := value];
    }

    /** handleDistrictChange (lines 50-55). */
    method HandleDistrictChange(value: string)
      requires Valid()
      modifies this`formData
      ensures Valid() && formData == old(formData)["district" := value]
    {
      formData := formData["district" := value];
    }

    /** The date picker's onDateSelect (line 170). */
    method SelectDate(date: int)
      modifies this`selectedDate
      ensures selectedDate == Some(date)
    {
      selectedDate := Some(date);
    }

    /**
     * handleSubmit (lines 57-83). Different password and confirmation:
     * the mismatch message and no call. Otherwise the message is cleared and
     * one create call is made; a success goes to the login page, a failure
     * goes nowhere and shows nothing.
     */
    method HandleSubmit(outcome: Outcome)
      requires Valid()
      modifies this`errorMessage, this`creates, this`navigations
      ensures formData["password"] != formData["confirmPassword"] ==>
                errorMessage == Some(MismatchMessage) && creates == old(creates) && navigations == old(navigations)
      ensures formData["password"] == formData["confirmPassword"] ==>
                errorMessage == None && creates == old(creates) + [PayloadOf(formData, selectedDate)]
      ensures formData["password"] == formData["confirmPassword"] && outcome.Done? ==>
                navigations == old(navigations) + [PathOnly("/user/login")]
      ensures formData["password"] == formData["confirmPassword"] && outcome.Failed? ==>
                navigations == old(navigations)
    {
      if formData["password"] != formData["confirmPassword"] {
        errorMessage := Some(MismatchMessage);
        return;
      }
      errorMessage := None;
      var userData := UserPayload(formData["fullName"], formData["tcKimlik"], formData["email"], formData["phone"],
                                  if selectedDate.Some? then Instant(selectedDate.value) else Str(""),
                                  formData["district"], formData["password"]);
      creates := creates + [userData];
      if outcome.Done? {
        navigations := navigations + [PathOnly("/user/login")];
      }
    }
  }
}
