/**
 * app/company/settings/page.tsx: a company edits its details and changes
 * its password. The id comes from the stored token.
 */
module CompanySettingsPage {
  import opened Common
  import opened Text
  import opened PasswordChange

  /** The company's details; the two employee ranges are EmployeesRange codes, None being 0. */
  datatype CompanyInfo = CompanyInfo(tcKimlik: string, vkn: string, fullName: string, phone: string,
                                     birthDate: string, email: string, companyName: string, position: string,
                                     district: string, employeesInCity: int, employeesInCountry: int)

  const EmptyCompanyInfo := CompanyInfo("", "", "", "", "", "", "", "", "", 0, 0)
  const FetchFailedToast := "Şirket bilgileri alınırken bir hata oluştu."

  class CompanySettings {
    /** The id decoded from the token at render time; null without one. */
    const companyId: Option<string>
    var loading: bool
    var updateLoading: bool
    var passwordLoading: bool
    var successDialogOpen: bool
    var successMessage: string
    var passwordError: string
    var companyData: CompanyInfo
    var passwordData: PasswordForm
    var calls: seq<SettingsCall<CompanyInfo>>
    var navigations: seq<Target>
    /** The descriptions of the error toasts shown. */
    var toasts: seq<string>

    /** The initial state (lines 33-61). */
    constructor (companyId: Option<string>)
      ensures this.companyId == companyId
      ensures loading && !updateLoading && !passwordLoading && !successDialogOpen
      ensures successMessage == "" && passwordError == ""
      ensures companyData == EmptyCompanyInfo && passwordData == EmptyPasswordForm
      ensures calls == [] && navigations == [] && toasts == []
    {
      this.companyId := companyId;
      loading := true;
      updateLoading := false;
      passwordLoading := false;
      successDialogOpen := false;
      successMessage := "";
      passwordError := "";
      companyData := EmptyCompanyInfo;
      passwordData := EmptyPasswordForm;
      calls := [];
      navigations := [];
      toasts := [];
    }

    /**
     * The load effect (lines 63-99): without an id go to the login page and
     * fetch nothing (loading then never ends); otherwise fetch the company and
     * copy its details, or toast on failure.
     */
    method Load(fetched: Result<CompanyInfo>)
      modifies this`loading, this`companyData, this`calls, this`navigations, this`toasts
      ensures !Present(companyId) ==>
                navigations == old(navigations) + [PathOnly("/company/login")] && calls == old(calls) &&
                loading == old(loading) && companyData == old(companyData) && toasts == old(toasts)
      ensures Present(companyId) ==>
                navigations == old(navigations) && calls == old(calls) + [GetById(companyId)] && !loading
      ensures Present(companyId) && fetched.Ok? ==> companyData == fetched.value && toasts == old(toasts)
      ensures Present(companyId) && fetched.Err? ==> companyData == old(companyData) && toasts == old(toasts) + [FetchFailedToast]
    {
      if !Present(companyId) {
        navigations := navigations + [PathOnly("/company/login")];
        return;
      }
      calls := calls + [GetById(companyId)];
      if fetched.Ok? {
        companyData := fetched.value;
      } else {
        toasts := toasts + [FetchFailedToast];
      }
      loading := false;
    }

    /** A password input's onChange (lines 385-418). */
    method EditPassword(field: PasswordField, value: string)
      modifies this`passwordData
      ensures passwordData == WithField(old(passwordData), field, value)
    {
      passwordData := WithField(passwordData, field, value);
    }

    /**
     * handleUpdateInfo (lines 101-119): send the details; a success opens the
     * dialog with its message, a failure toasts; the flag ends false.
     */
    method HandleUpdateInfo(outcome: Outcome)
      modifies this`updateLoading, this`successMessage, this`successDialogOpen, this`calls, this`toasts
      ensures calls == old(calls) + [Update(companyId, companyData)] && !updateLoading
      ensures outcome.Done? ==>
                successMessage == InfoUpdatedMessage && successDialogOpen && toasts == old(toasts)
      ensures outcome.Failed? ==>
                successMessage == old(successMessage) && successDialogOpen == old(successDialogOpen) &&
                toasts == old(toasts) + [UpdateFailedToast]
    {
      updateLoading := true;
      calls := calls + [Update(companyId, companyData)];
      if outcome.Done? {
        successMessage := InfoUpdatedMessage;
        successDialogOpen := true;
      } else {
        toasts := toasts + [UpdateFailedToast];
      }
      updateLoading := false;
    }

    /**
     * handlePasswordChange (lines 121-152). The error is cleared first. A
     * mismatch is refused with no call and the loading flag untouched. A
     * success clears the three fields and opens the dialog; a failure keeps
     * them, leaves the dialog alone and words the error by the server's text.
     */
    method HandlePasswordChange(outcome: Outcome)
      modifies this`passwordError, this`passwordLoading, this`successMessage, this`successDialogOpen,
               this`passwordData, this`calls
      ensures Mismatched(old(passwordData)) ==>
                passwordError == MismatchMessage && calls == old(calls) &&
                passwordLoading == old(passwordLoading) && passwordData == old(passwordData) &&
                successDialogOpen == old(successDialogOpen) && successMessage == old(successMessage)
      ensures !Mismatched(old(passwordData)) ==>
                calls == old(calls) +
                  [UpdatePassword(companyId, old(passwordData).currentPassword, old(passwordData).newPassword)] &&
                !passwordLoading
      ensures !Mismatched(old(passwordData)) && outcome.Done? ==>
                passwordError == "" && passwordData == EmptyPasswordForm &&
                successDialogOpen && successMessage == PasswordChangedMessage
      ensures !Mismatched(old(passwordData)) && outcome.Failed? ==>
                passwordError == FailureMessage(outcome.message) && passwordData == old(passwordData) &&
                successDialogOpen == old(successDialogOpen) && successMessage == old(successMessage)
    {
      passwordError := "";
      if passwordData.newPassword != passwordData.confirmPassword {
        passwordError := MismatchMessage;
        return;
      }
      passwordLoading := true;
      calls := calls + [UpdatePassword(companyId, passwordData.currentPassword, passwordData.newPassword)];
      if outcome.Done? {
        successMessage := PasswordChangedMessage;
        successDialogOpen := true;
        passwordData := EmptyPasswordForm;
      } else {
        if Includes(outcome.message, WrongPasswordMarker) {
          passwordError := WrongCurrentMessage;
        } else {
          passwordError := ChangeFailedMessage;
        }
      }
      passwordLoading := false;
    }

    /** The success dialog's close (line 431). */
    method CloseDialog()
      modifies this`successDialogOpen
      ensures !successDialogOpen
    {
      successDialogOpen := false;
    }
  }
}
