/**
 * What the three settings pages (user, company, admin) share: the
 * password form, its messages, the calls they make and how a failed
 * password update is worded.
 */
module PasswordChange {
  import opened Common
  import opened Text

  const MismatchMessage := "Yeni parolalar eşleşmiyor."
  const WrongCurrentMessage := "Mevcut parola yanlış."
  const ChangeFailedMessage := "Parola güncellenirken bir hata oluştu."
  const PasswordChangedMessage := "Parola başarıyla güncellendi"
  const InfoUpdatedMessage := "Bilgiler başarıyla güncellendi"
  const UpdateFailedToast := "Bilgiler güncellenirken bir hata oluştu."
  /** The server's text for a wrong current password. */
  const WrongPasswordMarker := "Hatalı parola"

  datatype PasswordForm = PasswordForm(currentPassword: string, newPassword: string, confirmPassword: string)

  const EmptyPasswordForm := PasswordForm("", "", "")

  datatype PasswordField = Current | New | Confirm

  /** The backend calls of a settings page whose profile record is `I`; the id is null when the token gave none. */
  datatype SettingsCall<I> =
    | GetById(id: Option<string>)
    | Update(id: Option<string>, info: I)
    | UpdatePassword(id: Option<string>, currentPassword: string, newPassword: string)

  /** One password input's onChange: that field takes the typed value, the others stay. */
  function WithField(form: PasswordForm, field: PasswordField, value: string): (r: PasswordForm)
    ensures field == Current ==> r.currentPassword == value
    ensures field == New ==> r.newPassword == value
    ensures field == Confirm ==> r.confirmPassword == value
    ensures field != Current ==> r.currentPassword == form.currentPassword
    ensures field != New ==> r.newPassword == form.newPassword
    ensures field != Confirm ==> r.confirmPassword == form.confirmPassword
  {
    match field
    case Current => form.(currentPassword := value)
    case New => form.(newPassword := value)
    case Confirm => form.(confirmPassword := value)
  }

  /**
   * The user and company pages' wording of a failed update: a wrong
   * current password when the server's text mentions it, a general
   * failure otherwise.
   */
  function FailureMessage(errorText: string): (r: string)
    ensures r == WrongCurrentMessage <==> Includes(errorText, WrongPasswordMarker)
    ensures r == ChangeFailedMessage <==> !Includes(errorText, WrongPasswordMarker)
  {
    if Includes(errorText, WrongPasswordMarker) then WrongCurrentMessage else ChangeFailedMessage
  }

  /** A failure never reads like the mismatch message, so the two cases stay apart. */
  lemma FailureIsNotMismatch(errorText: string)
    ensures FailureMessage(errorText) != MismatchMessage
    ensures FailureMessage(errorText) != ""
  {
  }

  /** The server's own text for a wrong password is always read as one. */
  lemma MarkerReadsAsWrongCurrent(prefix: string, suffix: string)
    ensures FailureMessage(prefix + WrongPasswordMarker + suffix) == WrongCurrentMessage
  {
    var text := prefix + WrongPasswordMarker + suffix;
    assert text[|prefix|..|prefix| + |WrongPasswordMarker|] == WrongPasswordMarker;
    assert OccursAt(WrongPasswordMarker, text, |prefix|);
  }

  /** A form whose new password and confirmation differ is refused before any call. */
  predicate Mismatched(form: PasswordForm)
  {
    form.newPassword != form.confirmPassword
  }
}
