/**
 * app/user/settings/page.tsx: a job seeker edits their details and
 * changes their password. The id comes from the stored token.
 */
module UserSettingsPage {
  import opened Common
  import opened Text
  import opened PasswordChange

  datatype UserInfo = UserInfo(fullName: string, tcKimlik: string, email: string, phone: string,
                               birthDate: string, district: string)

  const EmptyUserInfo := UserInfo("", "", "", "", "", "")
  const FetchFailedToast := "Kullanıcı bilgileri alınırken bir hata oluştu."

  class UserSettings {
    /** The id decoded from the token at render time; null without one. */
    const userId: Option<string>
    var loading: bool
    var updateLoading: bool
    var passwordLoading: bool
    var successDialogOpen: bool
    var successMessage: string
    var passwordError: string
    var userData: UserInfo
    var passwordData: PasswordForm
    var calls: seq<SettingsCall<UserInfo>>
    var navigations: seq<Target>
    /** The descriptions of the error toasts shown. */
    var toasts: seq<string>

    /** The initial state (lines 36-59). */
    constructor (userId: Option<string>)
      ensures this.userId == userId
      ensures loading && !updateLoading && !passwordLoading && !successDialogOpen
      ensures successMessage == "" && passwordError == ""
      ensures userData == EmptyUserInfo && passwordData == EmptyPasswordForm
      ensures calls == [] && navigations == [] && toasts == []
    {
      this.userId := userId;
      loading := true;
      updateLoading := false;
      passwordLoading := false;
      successDialogOpen := false;
      successMessage := "";
      passwordError := "";
      userData := EmptyUserInfo;
      passwordData := EmptyPasswordForm;
      calls := [];
      navigations := [];
      toasts := [];
    }

    /**
     * The load effect (lines 61-92): without an id go to the login page and
     * fetch nothing (loading then never ends); otherwise fetch the user and
     * copy its details, or toast on failure.
     */
    method Load(fetched: Result<UserInfo>)
      modifies this`loading, this`userData, this`calls, this`navigations, this`toasts
      ensures !Present(userId) ==>
                navigations == old(navigations) + [PathOnly("/user/login")] && calls == old(calls) &&
                loading == old(loading) && userData == old(userData) && toasts == old(toasts)
      ensures Present(userId) ==>
                navigations == old(navigations) && calls == old(calls) + [GetById(userId)] && !loading
      ensures Present(userId) && fetched.Ok? ==> userData == fetched.value && toasts == old(toasts)
      ensures Present(userId) && fetched.Err? ==> userData == old(userData) && toasts == old(toasts) + [FetchFailedToast]
    {
      if !Present(userId) {
        navigations := navigations + [PathOnly("/user/login")];
        return;
      }
      calls := calls + [GetById(userId)];
      if fetched.Ok? {
        userData := fetched.value;
      } else {
        toasts := toasts + [FetchFailedToast];
      }
      loading := false;
    }

    /** A password input's onChange (lines 274-310). */
    method EditPassword(field: PasswordField, value: string)
      modifies this`passwordData
      ensures passwordData == WithField(old(passwordData), field, value)
    {
      passwordData := WithField(passwordData, field, value);
    }

    /**
     * handleUpdateInfo (lines 94-112): send the details; a success opens the
     * dialog with its message, a failure toasts; the flag ends false.
     */
    method HandleUpdateInfo(outcome: Outcome)
      modifies this`updateLoading, this`successMessage, this`successDialogOpen, this`calls, this`toasts
      ensures calls == old(calls) + [Update(userId, userData)] && !updateLoading
      ensures outcome.Done? ==>
                successMessage == InfoUpdatedMessage && successDialogOpen && toasts == old(toasts)
      ensures outcome.Failed? ==>
                successMessage == old(successMessage) && successDialogOpen == old(successDialogOpen) &&
                toasts == old(toasts) + [UpdateFailedToast]
    {
      updateLoading := true;
      calls := calls + [Update(userId, userData)];
      if outcome.Done? {
        successMessage := InfoUpdatedMessage;
        successDialogOpen := true;
      } else {
        toasts := toasts + [UpdateFailedToast];
      }
      updateLoading := false;
    }

    /**
     * handlePasswordChange (lines 114-146). The error is cleared first. A
     * mismatch is refused with no call and the loading flag untouched. A
     * success clears the three fields and opens the dialog; a failure keeps
     * them, leaves the dialog alone and words the error by the server's text.
     */
    method HandlePasswordChange(outcome: Outcome)
      modifies this`passwordError, this`passwordLoading, this`successMessage, this`successDialogOpen,
               this`passwordData, this`calls
      ensures Mismatched(old(passwordData)) ==>
                passwordError == MismatchMessage && calls == old(calls) &&
                passwordLoading == old(passwordLoading) && passwordData == old(passwordData) &&
                successDialogOpen == old(successDialogOpen) && successMessage == old(successMessage)
      ensures !Mismatched(old(passwordData)) ==>
                calls == old(calls) +
                  [UpdatePassword(userId, old(passwordData).currentPassword, old(passwordData).newPassword)] &&
                !passwordLoading
      ensures !Mismatched(old(passwordData)) && outcome.Done? ==>
                passwordError == "" && passwordData == EmptyPasswordForm &&
                successDialogOpen && successMessage == PasswordChangedMessage
      ensures !Mismatched(old(passwordData)) && outcome.Failed? ==>
                passwordError == FailureMessage(outcome.message) && passwordData == old(passwordData) &&
                successDialogOpen == old(successDialogOpen) && successMessage == old(successMessage)
    {
      passwordError := "";
      if passwordData.newPassword != passwordData.confirmPassword {
        passwordError := MismatchMessage;
        return;
      }
      passwordLoading := true;
      calls := calls + [UpdatePassword(userId, passwordData.currentPassword, passwordData.newPassword)];
      if outcome.Done? {
        successMessage := PasswordChangedMessage;
        successDialogOpen := true;
        passwordData := EmptyPasswordForm;
      } else {
        if Includes(outcome.message, WrongPasswordMarker) {
          passwordError := WrongCurrentMessage;
        } else {
          passwordError := ChangeFailedMessage;
        }
      }
      passwordLoading := false;
    }

    /** The success dialog's close (line 321). */
    method CloseDialog()
      modifies this`successDialogOpen
      ensures !successDialogOpen
    {
      successDialogOpen := false;
    }
  }
}
