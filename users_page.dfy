/**
 * app/super-admin/users/page.tsx: the super-admin's user list. It fetches
 * one server page of 8 users, filters that page by approval status and
 * search term, slices the result again into pages of 8, and deletes a user
 * through a confirm dialog.
 */
module UsersPage {
  import opened Common
  import opened Seqs
  import opened Text
  import opened Paging
  import opened Access
  import opened ListFilter
  import opened ConfirmDialog

  datatype User = User(id: string, fullName: string, email: string, approvalStatus: int)

  const ItemsPerPage := 8
  const DeletePrompt := "Bu kullanıcıyı silmek istediğinize emin misiniz?"
  const DeletedMessage := "Kullanıcı başarıyla silindi!"
  const DeleteFailedMessage := "Kullanıcı silme işlemi başarısız!"

  function UserStatus(u: User): int { u.approvalStatus }
  function SearchedFields(u: User): seq<string> { [u.fullName, u.email] }

  /** The users the filter effect keeps before slicing (lines 88-100). */
  function MatchingUsers(users: seq<User>, status: Option<int>, term: string): (r: seq<User>)
    ensures IsSubseq(r, users)
    ensures forall u :: u in users ==> (u in r <==>
      (status.None? || u.approvalStatus == status.value) &&
      (term == "" || IncludesCI(u.fullName, term) || IncludesCI(u.email, term)))
  {
    var r := StatusThenSearch(users, status, UserStatus, term, SearchedFields);
    forall u: User {
      MatchesTwoFields(u.fullName, u.email, term);
    }
    r
  }

  class UserListPage {
    var allUsers: seq<User>
    var filteredUsers: seq<User>
    var searchTerm: string
    var selectedStatus: Option<int>
    var currentPage: int
    var totalPages: int
    var loading: bool
    var showDialog: bool
    var dialogMessage: string
    var selectedUserId: Option<string>
    /** Backend calls made, in order. */
    var calls: seq<ListCall>
    /** Router pushes made, in order. */
    var navigations: seq<Target>

    /** The initial state (lines 25-34). */
    constructor ()
      ensures allUsers == [] && filteredUsers == [] && searchTerm == "" && selectedStatus == None
      ensures currentPage == 1 && totalPages == 0 && loading
      ensures !showDialog && dialogMessage == "" && selectedUserId == None
      ensures calls == [] && navigations == []
    {
      allUsers := [];
      filteredUsers := [];
      searchTerm := "";
      selectedStatus := None;
      currentPage := 1;
      totalPages := 0;
      loading := true;
      showDialog := false;
      dialogMessage := "";
      selectedUserId := None;
      calls := [];
      navigations := [];
    }

    /** The buttons the dialog offers besides İptal (lines 186-207). */
    function DialogButtons(): (r: Buttons)
      reads this`selectedUserId, this`dialogMessage
      ensures !(r.delete && r.ok)
      ensures r.delete <==> Present(selectedUserId) && dialogMessage == DeletePrompt
    {
      ButtonsFor(selectedUserId, dialogMessage, DeletePrompt)
    }

    /** The super-admin guard (lines 39-51). */
    method CheckAccess(token: Option<string>, role: Option<string>)
      modifies this`navigations
      ensures navigations == old(navigations) + Pushes(GuardRedirect(token, role, "/admin/login", "SuperAdmin"))
    {
      if !Present(token) {
        navigations := navigations + [PathOnly("/admin/login")];
        return;
      }
      if role != Some("SuperAdmin") {
        navigations := navigations + [PathOnly("/")];
        return;
      }
    }

    /**
     * fetchUsers (lines 53-64): one call for server page `page` of 8 users;
     * on success the list and the page count are replaced.
     */
    method FetchUsers(page: int, response: Result<Paged<User>>)
      modifies this`calls, this`loading, this`allUsers, this`totalPages
      ensures calls == old(calls) + [GetPaged(page, ItemsPerPage)]
      ensures response.Ok? ==> allUsers == response.value.data && totalPages == response.value.totalPages
      ensures response.Err? ==> allUsers == old(allUsers) && totalPages == old(totalPages)
      ensures !loading
    {
      loading := true;
      calls := calls + [GetPaged(page, ItemsPerPage)];
      if response.Ok? {
        allUsers := response.value.data;
        totalPages := response.value.totalPages;
      }
      loading := false;
    }

    /** The filter effect (lines 87-105): count the matching users and show page currentPage of them. */
    method ApplyFilters()
      modifies this`totalPages, this`filteredUsers
      ensures totalPages == PageCount(|MatchingUsers(allUsers, selectedStatus, searchTerm)|, ItemsPerPage)
      ensures filteredUsers == PageView(MatchingUsers(allUsers, selectedStatus, searchTerm), currentPage, ItemsPerPage)
      ensures forall u :: u in filteredUsers ==> u in allUsers
    {
      var users := allUsers;
      if selectedStatus.Some? {
        users := ByStatus(users, selectedStatus, UserStatus);
      }
      assert users == ByStatus(allUsers, selectedStatus, UserStatus);
      if searchTerm != "" {
        users := BySearch(users, searchTerm, SearchedFields);
      }
      assert users == MatchingUsers(allUsers, selectedStatus, searchTerm);
      totalPages := PageCount(|users|, ItemsPerPage);
      var startIndex := (currentPage - 1) * ItemsPerPage;
      filteredUsers := JsSlice(users, startIndex, startIndex + ItemsPerPage);
      SliceIsPage(users, currentPage, ItemsPerPage);
      PageMembers(users, currentPage, ItemsPerPage);
      SubseqMembers(users, allUsers);
    }

    /**
     * The reset effect (lines 107-109): back to page 1. When the page was
     * another one, the change fires the fetch effect (lines 83-85) for
     * server page 1; on page 1 already nothing is fetched.
     */
    method ResetPage(response: Result<Paged<User>>)
      modifies this`currentPage, this`calls, this`loading, this`allUsers, this`totalPages
      ensures currentPage == 1
      ensures old(currentPage) != 1 ==>
        calls == old(calls) + [GetPaged(1, ItemsPerPage)] && !loading &&
        allUsers == (if response.Ok? then response.value.data else old(allUsers))
      ensures old(currentPage) == 1 ==>
        calls == old(calls) && loading == old(loading) && allUsers == old(allUsers) && totalPages == old(totalPages)
    {
      if currentPage != 1 {
        currentPage := 1;
        FetchUsers(1, response);
      }
    }

    /**
     * Typing a search term: the reset effect, with the page-1 fetch it may
     * fire, then the filter effect on what is loaded.
     */
    method SetSearchTerm(term: string, response: Result<Paged<User>>)
      modifies this`searchTerm, this`currentPage, this`calls, this`loading, this`allUsers, this`totalPages,
               this`filteredUsers
      ensures searchTerm == term && currentPage == 1
      ensures old(currentPage) != 1 ==>
        calls == old(calls) + [GetPaged(1, ItemsPerPage)] &&
        allUsers == (if response.Ok? then response.value.data else old(allUsers))
      ensures old(currentPage) == 1 ==> calls == old(calls) && allUsers == old(allUsers)
      ensures totalPages == PageCount(|MatchingUsers(allUsers, selectedStatus, term)|, ItemsPerPage)
      ensures filteredUsers == PageView(MatchingUsers(allUsers, selectedStatus, term), 1, ItemsPerPage)
    {
      searchTerm := term;
      ResetPage(response);
      ApplyFilters();
    }

    /** Choosing a status (null for "Tümü"): the reset effect and its fetch, then the filter effect. */
    method SetSelectedStatus(status: Option<int>, response: Result<Paged<User>>)
      modifies this`selectedStatus, this`currentPage, this`calls, this`loading, this`allUsers, this`totalPages,
               this`filteredUsers
      ensures status == old(selectedStatus) ==> unchanged(this)
      ensures status != old(selectedStatus) ==> (selectedStatus == status && currentPage == 1)
      ensures status != old(selectedStatus) ==> (old(currentPage) != 1 ==>
        calls == old(calls) + [GetPaged(1, ItemsPerPage)] &&
        allUsers == (if response.Ok? then response.value.data else old(allUsers)))
      ensures status != old(selectedStatus) ==> (old(currentPage) == 1 ==> calls == old(calls) && allUsers == old(allUsers))
      ensures status != old(selectedStatus) ==> (totalPages == PageCount(|MatchingUsers(allUsers, status, searchTerm)|, ItemsPerPage))
      ensures status != old(selectedStatus) ==> (filteredUsers == PageView(MatchingUsers(allUsers, status, searchTerm), 1, ItemsPerPage))
    {
      if status != selectedStatus {
        selectedStatus := status;
        ResetPage(response);
        ApplyFilters();
      }
    }

    /**
     * A pagination click: the fetch effect (lines 83-85) loads server page p,
     * then the filter effect slices page p out of it. A server that honours
     * the page size returns at most 8 users, so every page from 2 on shows
     * nothing and the strip collapses to one page.
     */
    method ChangePage(p: int, response: Result<Paged<User>>)
      modifies this`currentPage, this`calls, this`loading, this`allUsers, this`totalPages, this`filteredUsers
      ensures p == old(currentPage) ==> unchanged(this)
      ensures p != old(currentPage) ==> (currentPage == p && calls == old(calls) + [GetPaged(p, ItemsPerPage)] && !loading)
      ensures p != old(currentPage) ==> (response.Ok? ==> allUsers == response.value.data)
      ensures p != old(currentPage) ==> (response.Err? ==> allUsers == old(allUsers))
      ensures p != old(currentPage) ==> (filteredUsers == PageView(MatchingUsers(allUsers, selectedStatus, searchTerm), p, ItemsPerPage))
      ensures p != old(currentPage) ==> (response.Ok? && |response.value.data| <= ItemsPerPage && p >= 2 ==>
        filteredUsers == [] && totalPages <= 1)
    {
      if p != currentPage {
        currentPage := p;
        FetchUsers(p, response);
        ApplyFilters();
        var matching := MatchingUsers(allUsers, selectedStatus, searchTerm);
        if response.Ok? && |response.value.data| <= ItemsPerPage && p >= 2 {
          SubseqMembers(matching, allUsers);
          ServerPageCollapse(matching, p, ItemsPerPage);
        }
      }
    }

    /** The table's delete action (lines 151-155): select the user and ask. */
    method RequestDelete(id: string)
      modifies this`selectedUserId, this`dialogMessage, this`showDialog
      ensures selectedUserId == Some(id) && dialogMessage == DeletePrompt && showDialog
      ensures DialogButtons() == Buttons(id != "", false)
    {
      selectedUserId := Some(id);
      dialogMessage := DeletePrompt;
      showDialog := true;
    }

    /** What the filter effect (lines 87-105) leaves on screen for the loaded list. */
    ghost predicate ShowsMatches()
      reads this`allUsers, this`selectedStatus, this`searchTerm, this`currentPage, this`totalPages, this`filteredUsers
    {
      totalPages == PageCount(|MatchingUsers(allUsers, selectedStatus, searchTerm)|, ItemsPerPage) &&
      filteredUsers == PageView(MatchingUsers(allUsers, selectedStatus, searchTerm), currentPage, ItemsPerPage)
    }

    /**
     * The success path of deleteUser (lines 71-73): the message, then a
     * refetch of the current page; a new list reruns the filter effect
     * (lines 87-105).
     */
    method Deleted(refetch: Result<Paged<User>>)
      modifies this`calls, this`loading, this`allUsers, this`totalPages, this`filteredUsers,
               this`dialogMessage, this`showDialog
      ensures dialogMessage == DeletedMessage && showDialog
      ensures calls == old(calls) + [GetPaged(currentPage, ItemsPerPage)] && !loading
      ensures refetch.Ok? ==> allUsers == refetch.value.data && ShowsMatches()
      ensures refetch.Err? ==>
        allUsers == old(allUsers) && totalPages == old(totalPages) && filteredUsers == old(filteredUsers)
    {
      dialogMessage := DeletedMessage;
      showDialog := true;
      FetchUsers(currentPage, refetch);
      if refetch.Ok? {
        ApplyFilters();
      }
    }

    /**
     * deleteUser (lines 66-81): nothing without a selection; otherwise one
     * delete call, a result message in the dialog, a refetch of the current
     * page after a success, and the selection cleared either way. A
     * refetched list reruns the filter effect (lines 87-105).
     */
    method DeleteUser(outcome: Outcome, refetch: Result<Paged<User>>)
      modifies this`calls, this`loading, this`allUsers, this`totalPages, this`filteredUsers,
               this`dialogMessage, this`showDialog, this`selectedUserId
      ensures !Present(old(selectedUserId)) ==>
        calls == old(calls) && selectedUserId == old(selectedUserId) &&
        dialogMessage == old(dialogMessage) && showDialog == old(showDialog)
      ensures Present(old(selectedUserId)) ==>
        selectedUserId == None && showDialog && DialogButtons() == Buttons(false, true)
      ensures Present(old(selectedUserId)) && outcome.Done? ==>
        dialogMessage == DeletedMessage &&
        calls == old(calls) + [Delete(old(selectedUserId).value), GetPaged(old(currentPage), ItemsPerPage)]
      ensures Present(old(selectedUserId)) && outcome.Failed? ==>
        dialogMessage == DeleteFailedMessage && calls == old(calls) + [Delete(old(selectedUserId).value)]
      ensures Present(old(selectedUserId)) && outcome.Done? && refetch.Ok? ==>
        allUsers == refetch.value.data && ShowsMatches()
      ensures !Present(old(selectedUserId)) || outcome.Failed? || refetch.Err? ==>
        allUsers == old(allUsers) && filteredUsers == old(filteredUsers) && totalPages == old(totalPages)
      ensures currentPage == old(currentPage)
    {
      if Present(selectedUserId) {
        DeleteSelected(outcome, refetch);
      }
    }

    /** deleteUser once a user is selected (lines 69-80). */
    method DeleteSelected(outcome: Outcome, refetch: Result<Paged<User>>)
      requires Present(selectedUserId)
      modifies this`calls, this`loading, this`allUsers, this`totalPages, this`filteredUsers,
               this`dialogMessage, this`showDialog, this`selectedUserId
      ensures selectedUserId == None && showDialog && DialogButtons() == Buttons(false, true)
      ensures outcome.Done? ==>
        dialogMessage == DeletedMessage &&
        calls == old(calls) + [Delete(old(selectedUserId).value), GetPaged(currentPage, ItemsPerPage)]
      ensures outcome.Failed? ==>
        dialogMessage == DeleteFailedMessage && calls == old(calls) + [Delete(old(selectedUserId).value)]
      ensures outcome.Done? && refetch.Ok? ==> allUsers == refetch.value.data && ShowsMatches()
      ensures outcome.Failed? || refetch.Err? ==>
        allUsers == old(allUsers) && filteredUsers == old(filteredUsers) && totalPages == old(totalPages)
    {
      calls := calls + [Delete(selectedUserId.value)];
      selectedUserId := None;
      if outcome.Done? {
        Deleted(refetch);
      } else {
        dialogMessage := DeleteFailedMessage;
        showDialog := true;
      }
    }

    /** İptal (lines 177-185): close the dialog and clear its text; the selection stays. */
    method Cancel()
      modifies this`showDialog, this`dialogMessage
      ensures !showDialog && dialogMessage == ""
      ensures !DialogButtons().delete
    {
      showDialog := false;
      dialogMessage := "";
    }

    /** Sil (lines 186-196): close the dialog and run deleteUser. */
    method ConfirmDelete(outcome: Outcome, refetch: Result<Paged<User>>)
      modifies this`calls, this`loading, this`allUsers, this`totalPages, this`filteredUsers,
               this`dialogMessage, this`showDialog, this`selectedUserId
      requires DialogButtons().delete
      ensures selectedUserId == None && showDialog
      ensures outcome.Done? ==>
        dialogMessage == DeletedMessage &&
        calls == old(calls) + [Delete(old(selectedUserId).value), GetPaged(old(currentPage), ItemsPerPage)]
      ensures outcome.Done? && refetch.Ok? ==> allUsers == refetch.value.data && ShowsMatches()
      ensures currentPage == old(currentPage)
      ensures outcome.Failed? ==>
        dialogMessage == DeleteFailedMessage && calls == old(calls) + [Delete(old(selectedUserId).value)]
      ensures DialogButtons() == Buttons(false, true)
    {
      showDialog := false;
      DeleteUser(outcome, refetch);
    }

    /** Tamam (lines 197-207): close the dialog and clear its text. */
    method Acknowledge()
      modifies this`showDialog, this`dialogMessage
      requires DialogButtons().ok
      ensures !showDialog && dialogMessage == ""
    {
      showDialog := false;
      dialogMessage := "";
    }
  }
}
