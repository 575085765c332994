/**
 * app/super-admin/admin/page.tsx: the super-admin's admin list. It filters
 * the fetched page by search term only, and its dialog has no separate Sil
 * button: Tamam both confirms the question and closes the result.
 */
module AdminsPage {
  import opened Common
  import opened Seqs
  import opened Text
  import opened Access
  import opened ListFilter

  datatype Admin = Admin(id: string, fullName: string, email: string)

  const ItemsPerPage := 8
  const DeletePrompt := "Bu admini silmek istediğinize emin misiniz?"
  const DeletedMessage := "Admin başarıyla silindi!"
  const DeleteFailedMessage := "Admin silme işlemi başarısız!"

  /** The admins the filter effect shows (lines 88-100). */
  function MatchingAdmins(admins: seq<Admin>, term: string): (r: seq<Admin>)
    ensures IsSubseq(r, admins)
    ensures forall a :: a in admins ==> (a in r <==>
      term == "" || IncludesCI(a.fullName, term) || IncludesCI(a.email, term))
    ensures term == "" ==> r == admins
  {
    var r := BySearch(admins, term, (a: Admin) => [a.fullName, a.email]);
    forall a: Admin {
      MatchesTwoFields(a.fullName, a.email, term);
    }
    r
  }

  class AdminListPage {
    var allAdmins: seq<Admin>
    var filteredAdmins: seq<Admin>
    var searchTerm: string
    var currentPage: int
    var totalPages: int
    var loading: bool
    var showDialog: bool
    var dialogMessage: string
    var selectedAdminId: Option<string>
    var calls: seq<ListCall>
    var navigations: seq<Target>

    /** The initial state (lines 25-34). */
    constructor ()
      ensures allAdmins == [] && filteredAdmins == [] && searchTerm == ""
      ensures currentPage == 1 && totalPages == 1 && !loading
      ensures !showDialog && dialogMessage == "" && selectedAdminId == None
      ensures calls == [] && navigations == []
    {
      allAdmins := [];
      filteredAdmins := [];
      searchTerm := "";
      currentPage := 1;
      totalPages := 1;
      loading := false;
      showDialog := false;
      dialogMessage := "";
      selectedAdminId := None;
      calls := [];
      navigations := [];
    }

    /** The super-admin guard (lines 39-51). */
    method CheckAccess(token: Option<string>, role: Option<string>)
      modifies this`navigations
      ensures navigations == old(navigations) + Pushes(GuardRedirect(token, role, "/admin/login", "SuperAdmin"))
    {
      if !Present(token) {
        navigations := navigations + [PathOnly("/admin/login")];
        return;
      }
      if role != Some("SuperAdmin") {
        navigations := navigations + [PathOnly("/")];
        return;
      }
    }

    /** fetchAdmins (lines 53-64). */
    method FetchAdmins(page: int, response: Result<Paged<Admin>>)
      modifies this`calls, this`loading, this`allAdmins, this`totalPages
      ensures calls == old(calls) + [GetPaged(page, ItemsPerPage)]
      ensures response.Ok? ==> allAdmins == response.value.data && totalPages == response.value.totalPages
      ensures response.Err? ==> allAdmins == old(allAdmins) && totalPages == old(totalPages)
      ensures !loading
    {
      loading := true;
      calls := calls + [GetPaged(page, ItemsPerPage)];
      if response.Ok? {
        allAdmins := response.value.data;
        totalPages := response.value.totalPages;
      }
      loading := false;
    }

    /** The filter effect (lines 88-100). */
    method ApplyFilters()
      modifies this`filteredAdmins
      ensures filteredAdmins == MatchingAdmins(allAdmins, searchTerm)
    {
      if searchTerm != "" {
        filteredAdmins := BySearch(allAdmins, searchTerm, (a: Admin) => [a.fullName, a.email]);
      } else {
        filteredAdmins := allAdmins;
      }
    }

    /** A new search term; this page has no reset effect, so the current page stays. */
    method SetSearchTerm(term: string)
      modifies this`searchTerm, this`filteredAdmins
      ensures searchTerm == term
      ensures filteredAdmins == MatchingAdmins(allAdmins, term)
    {
      searchTerm := term;
      ApplyFilters();
    }

    /** A pagination click (lines 84-86, then the filter effect). */
    method ChangePage(p: int, response: Result<Paged<Admin>>)
      modifies this`currentPage, this`calls, this`loading, this`allAdmins, this`totalPages, this`filteredAdmins
      ensures p == old(currentPage) ==> unchanged(this)
      ensures p != old(currentPage) ==> (currentPage == p && calls == old(calls) + [GetPaged(p, ItemsPerPage)] && !loading)
      ensures p != old(currentPage) ==> (response.Ok? ==> allAdmins == response.value.data && totalPages == response.value.totalPages)
      ensures p != old(currentPage) ==> (response.Err? ==> allAdmins == old(allAdmins) && totalPages == old(totalPages))
      ensures p != old(currentPage) ==> (filteredAdmins == MatchingAdmins(allAdmins, searchTerm))
    {
      if p != currentPage {
        currentPage := p;
        FetchAdmins(p, response);
        ApplyFilters();
      }
    }

    /** The table's delete action (lines 135-141). */
    method RequestDelete(id: string)
      modifies this`selectedAdminId, this`dialogMessage, this`showDialog
      ensures selectedAdminId == Some(id) && dialogMessage == DeletePrompt && showDialog
    {
      selectedAdminId := Some(id);
      dialogMessage := DeletePrompt;
      showDialog := true;
    }

    /**
     * deleteAdmin (lines 66-82): nothing without a selection; otherwise one
     * delete call, a result message in the dialog, a refetch of the current
     * page after a success, and the selection cleared either way. A
     * refetched list reruns the filter effect (lines 88-100).
     */
    method DeleteAdmin(outcome: Outcome, refetch: Result<Paged<Admin>>)
      modifies this`calls, this`loading, this`allAdmins, this`totalPages, this`filteredAdmins,
               this`dialogMessage, this`showDialog, this`selectedAdminId
      ensures !Present(old(selectedAdminId)) ==>
        calls == old(calls) && selectedAdminId == old(selectedAdminId) &&
        dialogMessage == old(dialogMessage) && showDialog == old(showDialog)
      ensures Present(old(selectedAdminId)) ==> selectedAdminId == None && showDialog
      ensures Present(old(selectedAdminId)) && outcome.Done? ==>
        dialogMessage == DeletedMessage &&
        calls == old(calls) + [Delete(old(selectedAdminId).value), GetPaged(old(currentPage), ItemsPerPage)]
      ensures Present(old(selectedAdminId)) && outcome.Failed? ==>
        dialogMessage == DeleteFailedMessage && calls == old(calls) + [Delete(old(selectedAdminId).value)]
      ensures Present(old(selectedAdminId)) && outcome.Done? && refetch.Ok? ==>
        allAdmins == refetch.value.data && totalPages == refetch.value.totalPages &&
        filteredAdmins == MatchingAdmins(allAdmins, searchTerm)
      ensures !Present(old(selectedAdminId)) || outcome.Failed? || refetch.Err? ==>
        allAdmins == old(allAdmins) && filteredAdmins == old(filteredAdmins) && totalPages == old(totalPages)
      ensures currentPage == old(currentPage)
    {
      if Present(selectedAdminId) {
        DeleteSelected(outcome, refetch);
      }
    }

    /** deleteAdmin once an admin is selected (lines 69-81). */
    method DeleteSelected(outcome: Outcome, refetch: Result<Paged<Admin>>)
      modifies this`calls, this`loading, this`allAdmins, this`totalPages, this`filteredAdmins,
               this`dialogMessage, this`showDialog, this`selectedAdminId
      requires Present(selectedAdminId)
      ensures selectedAdminId == None && showDialog
      ensures outcome.Done? ==>
        dialogMessage == DeletedMessage &&
        calls == old(calls) + [Delete(old(selectedAdminId).value), GetPaged(currentPage, ItemsPerPage)]
      ensures outcome.Failed? ==>
        dialogMessage == DeleteFailedMessage && calls == old(calls) + [Delete(old(selectedAdminId).value)]
      ensures outcome.Done? && refetch.Ok? ==>
        allAdmins == refetch.value.data && totalPages == refetch.value.totalPages &&
        filteredAdmins == MatchingAdmins(allAdmins, searchTerm)
      ensures outcome.Failed? || refetch.Err? ==>
        allAdmins == old(allAdmins) && filteredAdmins == old(filteredAdmins) && totalPages == old(totalPages)
    {
      calls := calls + [Delete(selectedAdminId.value)];
      selectedAdminId := None;
      if outcome.Done? {
        Deleted(refetch);
      } else {
        dialogMessage := DeleteFailedMessage;
        showDialog := true;
      }
    }

    /**
     * The success path of deleteAdmin (lines 71-74): the message, then a
     * refetch of the current page; a new list reruns the filter effect.
     */
    method Deleted(refetch: Result<Paged<Admin>>)
      modifies this`calls, this`loading, this`allAdmins, this`totalPages, this`filteredAdmins,
               this`dialogMessage, this`showDialog
      ensures dialogMessage == DeletedMessage && showDialog
      ensures calls == old(calls) + [GetPaged(currentPage, ItemsPerPage)] && !loading
      ensures refetch.Ok? ==>
        allAdmins == refetch.value.data && totalPages == refetch.value.totalPages &&
        filteredAdmins == MatchingAdmins(allAdmins, searchTerm)
      ensures refetch.Err? ==>
        allAdmins == old(allAdmins) && totalPages == old(totalPages) && filteredAdmins == old(filteredAdmins)
    {
      dialogMessage := DeletedMessage;
      showDialog := true;
      FetchAdmins(currentPage, refetch);
      if refetch.Ok? {
        ApplyFilters();
      }
    }

    /** İptal (lines 161-169): close and clear the text; the selection stays. */
    method Cancel()
      modifies this`showDialog, this`dialogMessage
      ensures !showDialog && dialogMessage == ""
      ensures selectedAdminId == old(selectedAdminId)
    {
      showDialog := false;
      dialogMessage := "";
    }

    /**
     * Tamam (lines 171-179), always shown: close the dialog and run
     * deleteAdmin. Clicked on the question it deletes the selected admin;
     * clicked on a result, whose selection deleteAdmin has already
     * cleared, it only closes the dialog.
     */
    method Ok(outcome: Outcome, refetch: Result<Paged<Admin>>)
      modifies this`calls, this`loading, this`allAdmins, this`totalPages, this`filteredAdmins,
               this`dialogMessage, this`showDialog, this`selectedAdminId
      ensures !Present(old(selectedAdminId)) ==>
        !showDialog && calls == old(calls) && dialogMessage == old(dialogMessage)
      ensures Present(old(selectedAdminId)) ==> selectedAdminId == None && showDialog
      ensures Present(old(selectedAdminId)) && outcome.Done? ==>
        dialogMessage == DeletedMessage &&
        calls == old(calls) + [Delete(old(selectedAdminId).value), GetPaged(old(currentPage), ItemsPerPage)]
      ensures Present(old(selectedAdminId)) && outcome.Failed? ==>
        dialogMessage == DeleteFailedMessage && calls == old(calls) + [Delete(old(selectedAdminId).value)]
      ensures Present(old(selectedAdminId)) && outcome.Done? && refetch.Ok? ==>
        allAdmins == refetch.value.data && totalPages == refetch.value.totalPages &&
        filteredAdmins == MatchingAdmins(allAdmins, searchTerm)
      ensures !Present(old(selectedAdminId)) || outcome.Failed? || refetch.Err? ==>
        allAdmins == old(allAdmins) && filteredAdmins == old(filteredAdmins) && totalPages == old(totalPages)
    {
      showDialog := false;
      DeleteAdmin(outcome, refetch);
    }
  }
}
