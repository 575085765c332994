/**
 * app/admin/companies/page.tsx: the admin's company list. It shows the
 * fetched server page filtered by approval status and search term, without
 * slicing it again, and deletes a company through a confirm dialog.
 */
module CompaniesPage {
  import opened Common
  import opened Seqs
  import opened Text
  import opened Numerals
  import opened Access
  import opened ListFilter
  import opened ConfirmDialog

  datatype Company = Company(id: string, companyName: string, email: string, approvalStatus: int)

  const ItemsPerPage := 8
  const AllStatuses := "Tümü"
  const DeletePrompt := "Bu şirketi silmek istediğinize emin misiniz?"
  const DeletedMessage := "Şirket başarıyla silindi!"
  const DeleteFailedMessage := "Şirket silme işlemi başarısız!"

  /** The companies the filter effect shows (lines 88-106). */
  function MatchingCompanies(companies: seq<Company>, status: Option<int>, term: string): (r: seq<Company>)
    ensures IsSubseq(r, companies)
    ensures forall c :: c in companies ==> (c in r <==>
      (status.None? || c.approvalStatus == status.value) &&
      (term == "" || IncludesCI(c.companyName, term) || IncludesCI(c.email, term)))
    ensures status.None? && term == "" ==> r == companies
  {
    var r := StatusThenSearch(companies, status, (c: Company) => c.approvalStatus, term,
                              (c: Company) => [c.companyName, c.email]);
    forall c: Company {
      MatchesTwoFields(c.companyName, c.email, term);
    }
    r
  }

  /** A value the status select can send: "Tümü" or the decimal numeral of a status. */
  predicate SelectValue(value: string)
  {
    value == AllStatuses || IsDigits(value) || (|value| > 1 && value[0] == '-' && IsDigits(value[1..]))
  }

  /** handleStatusChange's mapping (lines 112-116): "Tümü" is no status, any other value its parseInt. */
  function StatusFromSelect(value: string): (r: Option<int>)
    requires SelectValue(value)
    ensures r.None? <==> value == AllStatuses
    ensures r.Some? ==> JsNumber(value) == JsNum.Num(r.value)
  {
    if value == AllStatuses then None
    else
      assert !IsDigit('T');
      Some(ParseDecimal(value))
  }

  /** The select writes a status as `status.toString()`; reading it back gives that status. */
  lemma SelectRoundTrip(status: nat)
    ensures SelectValue(NatToString(status))
    ensures StatusFromSelect(NatToString(status)) == Some(status)
  {
    NatToStringRoundTrip(status);
  }

  class CompanyListPage {
    var allCompanies: seq<Company>
    var filteredCompanies: seq<Company>
    var searchTerm: string
    var selectedStatus: Option<int>
    var currentPage: int
    var totalPages: int
    var loading: bool
    var showDialog: bool
    var dialogMessage: string
    var selectedCompanyId: Option<string>
    var calls: seq<ListCall>
    var navigations: seq<Target>

    /** The initial state (lines 25-34). */
    constructor ()
      ensures allCompanies == [] && filteredCompanies == [] && searchTerm == "" && selectedStatus == None
      ensures currentPage == 1 && totalPages == 0 && loading
      ensures !showDialog && dialogMessage == "" && selectedCompanyId == None
      ensures calls == [] && navigations == []
    {
      allCompanies := [];
      filteredCompanies := [];
      searchTerm := "";
      selectedStatus := None;
      currentPage := 1;
      totalPages := 0;
      loading := true;
      showDialog := false;
      dialogMessage := "";
      selectedCompanyId := None;
      calls := [];
      navigations := [];
    }

    /** The buttons the dialog offers besides İptal (lines 185-206). */
    function DialogButtons(): (r: Buttons)
      reads this`selectedCompanyId, this`dialogMessage
      ensures !(r.delete && r.ok)
      ensures r.delete <==> Present(selectedCompanyId) && dialogMessage == DeletePrompt
    {
      ButtonsFor(selectedCompanyId, dialogMessage, DeletePrompt)
    }

    /** The admin guard (lines 39-52). */
    method CheckAccess(token: Option<string>, role: Option<string>)
      modifies this`navigations
      ensures navigations == old(navigations) + Pushes(GuardRedirect(token, role, "/admin/login", "Admin"))
    {
      if !Present(token) {
        navigations := navigations + [PathOnly("/admin/login")];
        return;
      }
      if role != Some("Admin") {
        navigations := navigations + [PathOnly("/")];
        return;
      }
    }

    /** fetchCompanies (lines 54-65). */
    method FetchCompanies(page: int, response: Result<Paged<Company>>)
      modifies this`calls, this`loading, this`allCompanies, this`totalPages
      ensures calls == old(calls) + [GetPaged(page, ItemsPerPage)]
      ensures response.Ok? ==> allCompanies == response.value.data && totalPages == response.value.totalPages
      ensures response.Err? ==> allCompanies == old(allCompanies) && totalPages == old(totalPages)
      ensures !loading
    {
      loading := true;
      calls := calls + [GetPaged(page, ItemsPerPage)];
      if response.Ok? {
        allCompanies := response.value.data;
        totalPages := response.value.totalPages;
      }
      loading := false;
    }

    /** The filter effect (lines 88-106): the whole fetched page, filtered, with the server's page count. */
    method ApplyFilters()
      modifies this`filteredCompanies
      ensures filteredCompanies == MatchingCompanies(allCompanies, selectedStatus, searchTerm)
    {
      var companies := allCompanies;
      if selectedStatus.Some? {
        companies := ByStatus(companies, selectedStatus, (c: Company) => c.approvalStatus);
      }
      if searchTerm != "" {
        companies := BySearch(companies, searchTerm, (c: Company) => [c.companyName, c.email]);
      }
      filteredCompanies := companies;
    }

    /**
     * The reset effect (lines 108-110): back to page 1. When the page was
     * another one, the change fires the fetch effect (lines 84-86) for
     * server page 1; on page 1 already nothing is fetched.
     */
    method ResetPage(response: Result<Paged<Company>>)
      modifies this`currentPage, this`calls, this`loading, this`allCompanies, this`totalPages
      ensures currentPage == 1
      ensures old(currentPage) != 1 ==>
        calls == old(calls) + [GetPaged(1, ItemsPerPage)] && !loading &&
        allCompanies == (if response.Ok? then response.value.data else old(allCompanies)) &&
        totalPages == (if response.Ok? then response.value.totalPages else old(totalPages))
      ensures old(currentPage) == 1 ==>
        calls == old(calls) && loading == old(loading) && allCompanies == old(allCompanies) &&
        totalPages == old(totalPages)
    {
      if currentPage != 1 {
        currentPage := 1;
        FetchCompanies(1, response);
      }
    }

    /** A new search term: the reset effect and the fetch it may fire, then the filter effect. */
    method SetSearchTerm(term: string, response: Result<Paged<Company>>)
      modifies this`searchTerm, this`currentPage, this`calls, this`loading, this`allCompanies, this`totalPages,
               this`filteredCompanies
      ensures searchTerm == term && currentPage == 1
      ensures old(currentPage) != 1 ==>
        calls == old(calls) + [GetPaged(1, ItemsPerPage)] &&
        allCompanies == (if response.Ok? then response.value.data else old(allCompanies))
      ensures old(currentPage) == 1 ==> calls == old(calls) && allCompanies == old(allCompanies)
      ensures filteredCompanies == MatchingCompanies(allCompanies, selectedStatus, term)
    {
      searchTerm := term;
      ResetPage(response);
      ApplyFilters();
    }

    /** handleStatusChange (lines 112-116), then the reset effect and its fetch, then the filter effect. */
    method HandleStatusChange(value: string, response: Result<Paged<Company>>)
      modifies this`selectedStatus, this`currentPage, this`calls, this`loading, this`allCompanies, this`totalPages,
               this`filteredCompanies
      requires SelectValue(value)
      ensures StatusFromSelect(value) == old(selectedStatus) ==> unchanged(this)
      ensures StatusFromSelect(value) != old(selectedStatus) ==> (selectedStatus == StatusFromSelect(value) && currentPage == 1)
      ensures StatusFromSelect(value) != old(selectedStatus) ==> (old(currentPage) != 1 ==>
        calls == old(calls) + [GetPaged(1, ItemsPerPage)] &&
        allCompanies == (if response.Ok? then response.value.data else old(allCompanies)))
      ensures StatusFromSelect(value) != old(selectedStatus) ==> (old(currentPage) == 1 ==> calls == old(calls) && allCompanies == old(allCompanies))
      ensures StatusFromSelect(value) != old(selectedStatus) ==> (filteredCompanies == MatchingCompanies(allCompanies, selectedStatus, searchTerm))
    {
      if StatusFromSelect(value) != selectedStatus {
        if value == AllStatuses {
          selectedStatus := None;
        } else {
          selectedStatus := Some(ParseDecimal(value));
        }
        ResetPage(response);
        ApplyFilters();
      }
    }

    /** A pagination click: fetch server page p, then the filter effect. */
    method ChangePage(p: int, response: Result<Paged<Company>>)
      modifies this`currentPage, this`calls, this`loading, this`allCompanies, this`totalPages, this`filteredCompanies
      ensures p == old(currentPage) ==> unchanged(this)
      ensures p != old(currentPage) ==> (currentPage == p && calls == old(calls) + [GetPaged(p, ItemsPerPage)] && !loading)
      ensures p != old(currentPage) ==> (response.Ok? ==> allCompanies == response.value.data && totalPages == response.value.totalPages)
      ensures p != old(currentPage) ==> (response.Err? ==> allCompanies == old(allCompanies) && totalPages == old(totalPages))
      ensures p != old(currentPage) ==> (filteredCompanies == MatchingCompanies(allCompanies, selectedStatus, searchTerm))
    {
      if p != currentPage {
        currentPage := p;
        FetchCompanies(p, response);
        ApplyFilters();
      }
    }

    /** The table's delete action (lines 150-154). */
    method RequestDelete(id: string)
      modifies this`selectedCompanyId, this`dialogMessage, this`showDialog
      ensures selectedCompanyId == Some(id) && dialogMessage == DeletePrompt && showDialog
      ensures DialogButtons() == Buttons(id != "", false)
    {
      selectedCompanyId := Some(id);
      dialogMessage := DeletePrompt;
      showDialog := true;
    }

    /**
     * deleteCompany (lines 67-82): nothing without a selection; otherwise one
     * delete call, a result message in the dialog, a refetch of the current
     * page after a success, and the selection cleared either way. A
     * refetched list reruns the filter effect (lines 88-106).
     */
    method DeleteCompany(outcome: Outcome, refetch: Result<Paged<Company>>)
      modifies this`calls, this`loading, this`allCompanies, this`totalPages, this`filteredCompanies,
               this`dialogMessage, this`showDialog, this`selectedCompanyId
      ensures !Present(old(selectedCompanyId)) ==>
        calls == old(calls) && selectedCompanyId == old(selectedCompanyId) &&
        dialogMessage == old(dialogMessage) && showDialog == old(showDialog)
      ensures Present(old(selectedCompanyId)) ==>
        selectedCompanyId == None && showDialog && DialogButtons() == Buttons(false, true)
      ensures Present(old(selectedCompanyId)) && outcome.Done? ==>
        dialogMessage == DeletedMessage &&
        calls == old(calls) + [Delete(old(selectedCompanyId).value), GetPaged(old(currentPage), ItemsPerPage)]
      ensures Present(old(selectedCompanyId)) && outcome.Failed? ==>
        dialogMessage == DeleteFailedMessage && calls == old(calls) + [Delete(old(selectedCompanyId).value)]
      ensures Present(old(selectedCompanyId)) && outcome.Done? && refetch.Ok? ==>
        allCompanies == refetch.value.data && totalPages == refetch.value.totalPages &&
        filteredCompanies == MatchingCompanies(allCompanies, selectedStatus, searchTerm)
      ensures !Present(old(selectedCompanyId)) || outcome.Failed? || refetch.Err? ==>
        allCompanies == old(allCompanies) && filteredCompanies == old(filteredCompanies) &&
        totalPages == old(totalPages)
      ensures currentPage == old(currentPage)
    {
      if Present(selectedCompanyId) {
        DeleteSelected(outcome, refetch);
      }
    }

    /** deleteCompany once a company is selected (lines 70-81). */
    method DeleteSelected(outcome: Outcome, refetch: Result<Paged<Company>>)
      modifies this`calls, this`loading, this`allCompanies, this`totalPages, this`filteredCompanies,
               this`dialogMessage, this`showDialog, this`selectedCompanyId
      requires Present(selectedCompanyId)
      ensures selectedCompanyId == None && showDialog && DialogButtons() == Buttons(false, true)
      ensures outcome.Done? ==>
        dialogMessage == DeletedMessage &&
        calls == old(calls) + [Delete(old(selectedCompanyId).value), GetPaged(currentPage, ItemsPerPage)]
      ensures outcome.Failed? ==>
        dialogMessage == DeleteFailedMessage && calls == old(calls) + [Delete(old(selectedCompanyId).value)]
      ensures outcome.Done? && refetch.Ok? ==>
        allCompanies == refetch.value.data && totalPages == refetch.value.totalPages &&
        filteredCompanies == MatchingCompanies(allCompanies, selectedStatus, searchTerm)
      ensures outcome.Failed? || refetch.Err? ==>
        allCompanies == old(allCompanies) && filteredCompanies == old(filteredCompanies) &&
        totalPages == old(totalPages)
    {
      calls := calls + [Delete(selectedCompanyId.value)];
      selectedCompanyId := None;
      if outcome.Done? {
        Deleted(refetch);
      } else {
        dialogMessage := DeleteFailedMessage;
        showDialog := true;
      }
    }

    /**
     * The success path of deleteCompany (lines 72-74): the message, then a
     * refetch of the current page; a new list reruns the filter effect.
     */
    method Deleted(refetch: Result<Paged<Company>>)
      modifies this`calls, this`loading, this`allCompanies, this`totalPages, this`filteredCompanies,
               this`dialogMessage, this`showDialog
      ensures dialogMessage == DeletedMessage && showDialog
      ensures calls == old(calls) + [GetPaged(currentPage, ItemsPerPage)] && !loading
      ensures refetch.Ok? ==>
        allCompanies == refetch.value.data && totalPages == refetch.value.totalPages &&
        filteredCompanies == MatchingCompanies(allCompanies, selectedStatus, searchTerm)
      ensures refetch.Err? ==>
        allCompanies == old(allCompanies) && totalPages == old(totalPages) &&
        filteredCompanies == old(filteredCompanies)
    {
      dialogMessage := DeletedMessage;
      showDialog := true;
      FetchCompanies(currentPage, refetch);
      if refetch.Ok? {
        ApplyFilters();
      }
    }

    /** İptal (lines 176-184). */
    method Cancel()
      modifies this`showDialog, this`dialogMessage
      ensures !showDialog && dialogMessage == ""
      ensures !DialogButtons().delete
    {
      showDialog := false;
      dialogMessage := "";
    }

    /** Sil (lines 185-195): close the dialog and run deleteCompany. */
    method ConfirmDelete(outcome: Outcome, refetch: Result<Paged<Company>>)
      modifies this`calls, this`loading, this`allCompanies, this`totalPages, this`filteredCompanies,
               this`dialogMessage, this`showDialog, this`selectedCompanyId
      requires DialogButtons().delete
      ensures selectedCompanyId == None && showDialog
      ensures outcome.Done? ==>
        dialogMessage == DeletedMessage &&
        calls == old(calls) + [Delete(old(selectedCompanyId).value), GetPaged(old(currentPage), ItemsPerPage)]
      ensures outcome.Failed? ==>
        dialogMessage == DeleteFailedMessage && calls == old(calls) + [Delete(old(selectedCompanyId).value)]
      ensures outcome.Done? && refetch.Ok? ==>
        allCompanies == refetch.value.data && filteredCompanies == MatchingCompanies(allCompanies, selectedStatus, searchTerm)
      ensures DialogButtons() == Buttons(false, true)
    {
      showDialog := false;
      DeleteCompany(outcome, refetch);
    }

    /** Tamam (lines 196-206). */
    method Acknowledge()
      modifies this`showDialog, this`dialogMessage
      requires DialogButtons().ok
      ensures !showDialog && dialogMessage == ""
    {
      showDialog := false;
      dialogMessage := "";
    }
  }
}
