/**
 * app/admin/settings/page.tsx: an admin edits their details and changes
 * their password. The id and the role come from the stored token.
 */
module AdminSettingsPage {
  import opened Common
  import opened Text
  import opened PasswordChange

  datatype AdminInfo = AdminInfo(fullName: string, email: string, department: string)

  const EmptyAdminInfo := AdminInfo("", "", "")
  const FetchFailedToast := "Admin bilgileri alınırken bir hata oluştu."

  class AdminSettings {
    /** The id decoded from the token at render time; null without one. */
    const adminId: Option<string>
    var loading: bool
    var updateLoading: bool
    var passwordLoading: bool
    var successDialogOpen: bool
    var successMessage: string
    var passwordError: string
    var adminData: AdminInfo
    var passwordData: PasswordForm
    var calls: seq<SettingsCall<AdminInfo>>
    var navigations: seq<Target>
    /** The descriptions of the error toasts shown. */
    var toasts: seq<string>

    /** The initial state (lines 22-42). */
    constructor (adminId: Option<string>)
      ensures this.adminId == adminId
      ensures loading && !updateLoading && !passwordLoading && !successDialogOpen
      ensures successMessage == "" && passwordError == ""
      ensures adminData == EmptyAdminInfo && passwordData == EmptyPasswordForm
      ensures calls == [] && navigations == [] && toasts == []
    {
      this.adminId := adminId;
      loading := true;
      updateLoading := false;
      passwordLoading := false;
      successDialogOpen := false;
      successMessage := "";
      passwordError := "";
      adminData := EmptyAdminInfo;
      passwordData := EmptyPasswordForm;
      calls := [];
      navigations := [];
      toasts := [];
    }

    /**
     * The load effect (lines 44-78): without an id go to the admin login
     * page; with a role other than Admin go to "/"; neither fetches (and
     * loading then never ends). Otherwise fetch the admin and copy its
     * details, or toast on failure.
     */
    method Load(role: Option<string>, fetched: Result<AdminInfo>)
      modifies this`loading, this`adminData, this`calls, this`navigations, this`toasts
      ensures !Present(adminId) ==>
                navigations == old(navigations) + [PathOnly("/admin/login")] && calls == old(calls) &&
                loading == old(loading) && adminData == old(adminData) && toasts == old(toasts)
      ensures Present(adminId) && role != Some("Admin") ==>
                navigations == old(navigations) + [PathOnly("/")] && calls == old(calls) &&
                loading == old(loading) && adminData == old(adminData) && toasts == old(toasts)
      ensures Present(adminId) && role == Some("Admin") ==>
                navigations == old(navigations) && calls == old(calls) + [GetById(adminId)] && !loading
      ensures Present(adminId) && role == Some("Admin") && fetched.Ok? ==>
                adminData == fetched.value && toasts == old(toasts)
      ensures Present(adminId) && role == Some("Admin") && fetched.Err? ==>
                adminData == old(adminData) && toasts == old(toasts) + [FetchFailedToast]
    {
      if !Present(adminId) {
        navigations := navigations + [PathOnly("/admin/login")];
        return;
      }
      if role != Some("Admin") {
        navigations := navigations + [PathOnly("/")];
        return;
      }
      calls := calls + [GetById(adminId)];
      if fetched.Ok? {
        adminData := fetched.value;
      } else {
        toasts := toasts + [FetchFailedToast];
      }
      loading := false;
    }

    /** A password input's onChange (lines 242-279). */
    method EditPassword(field: PasswordField, value: string)
      modifies this`passwordData
      ensures passwordData == WithField(old(passwordData), field, value)
    {
      passwordData := WithField(passwordData, field, value);
    }

    /**
     * handleUpdateInfo (lines 80-98): send the details; a success opens the
     * dialog with its message, a failure toasts; the flag ends false.
     */
    method HandleUpdateInfo(outcome: Outcome)
      modifies this`updateLoading, this`successMessage, this`successDialogOpen, this`calls, this`toasts
      ensures calls == old(calls) + [Update(adminId, adminData)] && !updateLoading
      ensures outcome.Done? ==>
                successMessage == InfoUpdatedMessage && successDialogOpen && toasts == old(toasts)
      ensures outcome.Failed? ==>
                successMessage == old(successMessage) && successDialogOpen == old(successDialogOpen) &&
                toasts == old(toasts) + [UpdateFailedToast]
    {
      updateLoading := true;
      calls := calls + [Update(adminId, adminData)];
      if outcome.Done? {
        successMessage := InfoUpdatedMessage;
        successDialogOpen := true;
      } else {
        toasts := toasts + [UpdateFailedToast];
      }
      updateLoading := false;
    }

    /**
     * handlePasswordChange (lines 100-133). The error is cleared first. A
     * mismatch is refused with no call and the loading flag untouched. A
     * success clears the three fields and opens the dialog; a failure keeps
     * them, leaves the dialog alone and, whatever the server said, reports a
     * wrong current password (both branches of lines 125-129 set it).
     */
    method HandlePasswordChange(outcome: Outcome)
      modifies this`passwordError, this`passwordLoading, this`successMessage, this`successDialogOpen,
               this`passwordData, this`calls
      ensures Mismatched(old(passwordData)) ==>
                passwordError == MismatchMessage && calls == old(calls) &&
                passwordLoading == old(passwordLoading) && passwordData == old(passwordData) &&
                successDialogOpen == old(successDialogOpen) && successMessage == old(successMessage)
      ensures !Mismatched(old(passwordData)) ==>
                calls == old(calls) +
                  [UpdatePassword(adminId, old(passwordData).currentPassword, old(passwordData).newPassword)] &&
                !passwordLoading
      ensures !Mismatched(old(passwordData)) && outcome.Done? ==>
                passwordError == "" && passwordData == EmptyPasswordForm &&
                successDialogOpen && successMessage == PasswordChangedMessage
      ensures !Mismatched(old(passwordData)) && outcome.Failed? ==>
                passwordError == WrongCurrentMessage && passwordData == old(passwordData) &&
                successDialogOpen == old(successDialogOpen) && successMessage == old(successMessage)
    {
      passwordError := "";
      if passwordData.newPassword != passwordData.confirmPassword {
        passwordError := MismatchMessage;
        return;
      }
      passwordLoading := true;
      calls := calls + [UpdatePassword(adminId, passwordData.currentPassword, passwordData.newPassword)];
      if outcome.Done? {
        successMessage := PasswordChangedMessage;
        successDialogOpen := true;
        passwordData := EmptyPasswordForm;
      } else {
        if Includes(outcome.message, WrongPasswordMarker) {
          passwordError := WrongCurrentMessage;
        } else {
          passwordError := WrongCurrentMessage;
        }
      }
      passwordLoading := false;
    }

    /** The success dialog's close (line 301). */
    method CloseDialog()
      modifies this`successDialogOpen
      ensures !successDialogOpen
    {
      successDialogOpen := false;
    }
  }
}
