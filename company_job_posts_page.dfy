/**
 * app/company/job-post/page.tsx: a company's own job posts. It shows the
 * fetched server page filtered by status and by title, and deletes a post
 * through a confirm dialog.
 */
module CompanyJobPostsPage {
  import opened Common
  import opened Seqs
  import opened Text
  import opened Access
  import opened ListFilter
  import opened ConfirmDialog
  import opened JobPostApi

  const ItemsPerPage := 8
  const DeletePrompt := "Bu iş ilanını silmek istediğinize emin misiniz?"
  const DeletedMessage := "İş ilanı başarıyla silindi!"
  const DeleteFailedMessage := "İş ilanı silme işlemi başarısız!"

  /** The posts the filter effect shows (lines 94-107): the search looks at the title only. */
  function MatchingOwnJobs(jobs: seq<JobPost>, status: Option<int>, term: string): (r: seq<JobPost>)
    ensures IsSubseq(r, jobs)
    ensures forall j :: j in jobs ==> (j in r <==>
      (status.None? || j.applicationStatus == status.value) && (term == "" || IncludesCI(j.title, term)))
    ensures status.None? && term == "" ==> r == jobs
  {
    var r := StatusThenSearch(jobs, status, (j: JobPost) => j.applicationStatus, term, (j: JobPost) => [j.title]);
    forall j: JobPost {
      MatchesOneField(j.title, term);
    }
    r
  }

  class CompanyJobListPage {
    var allJobs: seq<JobPost>
    var filteredJobs: seq<JobPost>
    var searchTerm: string
    var selectedStatus: Option<int>
    var currentPage: int
    var totalPages: int
    var loading: bool
    var showDialog: bool
    var dialogMessage: string
    var selectedJobId: Option<string>
    var calls: seq<ListCall>
    var navigations: seq<Target>

    /** The initial state (lines 25-37). */
    constructor ()
      ensures allJobs == [] && filteredJobs == [] && searchTerm == "" && selectedStatus == None
      ensures currentPage == 1 && totalPages == 0 && !loading
      ensures !showDialog && dialogMessage == "" && selectedJobId == None
      ensures calls == [] && navigations == []
    {
      allJobs := [];
      filteredJobs := [];
      searchTerm := "";
      selectedStatus := None;
      currentPage := 1;
      totalPages := 0;
      loading := false;
      showDialog := false;
      dialogMessage := "";
      selectedJobId := None;
      calls := [];
      navigations := [];
    }

    /** The buttons the dialog offers besides İptal (lines 178-199). */
    function DialogButtons(): (r: Buttons)
      reads this`selectedJobId, this`dialogMessage
      ensures !(r.delete && r.ok)
      ensures r.delete <==> Present(selectedJobId) && dialogMessage == DeletePrompt
    {
      ButtonsFor(selectedJobId, dialogMessage, DeletePrompt)
    }

    /** The company guard (lines 43-56). */
    method CheckAccess(token: Option<string>, role: Option<string>)
      modifies this`navigations
      ensures navigations == old(navigations) + Pushes(GuardRedirect(token, role, "/company/login", "Company"))
    {
      if !Present(token) {
        navigations := navigations + [PathOnly("/company/login")];
        return;
      }
      if role != Some("Company") {
        navigations := navigations + [PathOnly("/")];
        return;
      }
    }

    /** fetchJobs (lines 58-71): getByCompanyIdPaged for server page `page` of 8. */
    method FetchJobs(page: int, response: Result<PagedResult>)
      modifies this`calls, this`loading, this`allJobs, this`totalPages
      ensures calls == old(calls) + [GetByCompanyPaged(page, ItemsPerPage)]
      ensures response.Ok? ==> allJobs == response.value.data && totalPages == response.value.totalPages
      ensures response.Err? ==> allJobs == old(allJobs) && totalPages == old(totalPages)
      ensures !loading
    {
      loading := true;
      calls := calls + [GetByCompanyPaged(page, ItemsPerPage)];
      if response.Ok? {
        allJobs := response.value.data;
        totalPages := response.value.totalPages;
      }
      loading := false;
    }

    /** The filter effect (lines 94-107). */
    method ApplyFilters()
      modifies this`filteredJobs
      ensures filteredJobs == MatchingOwnJobs(allJobs, selectedStatus, searchTerm)
    {
      var jobs := allJobs;
      if selectedStatus.Some? {
        jobs := ByStatus(jobs, selectedStatus, (j: JobPost) => j.applicationStatus);
      }
      if searchTerm != "" {
        jobs := BySearch(jobs, searchTerm, (j: JobPost) => [j.title]);
      }
      filteredJobs := jobs;
    }

    /**
     * The reset effect (lines 110-112): back to page 1. When the page was
     * another one, the change fires the fetch effect (lines 90-92) for
     * server page 1; on page 1 already nothing is fetched.
     */
    method ResetPage(response: Result<PagedResult>)
      modifies this`currentPage, this`calls, this`loading, this`allJobs, this`totalPages
      ensures currentPage == 1
      ensures old(currentPage) != 1 ==>
        calls == old(calls) + [GetByCompanyPaged(1, ItemsPerPage)] && !loading &&
        allJobs == (if response.Ok? then response.value.data else old(allJobs)) &&
        totalPages == (if response.Ok? then response.value.totalPages else old(totalPages))
      ensures old(currentPage) == 1 ==>
        calls == old(calls) && loading == old(loading) && allJobs == old(allJobs) && totalPages == old(totalPages)
    {
      if currentPage != 1 {
        currentPage := 1;
        FetchJobs(1, response);
      }
    }

    /** A new search term: the reset effect and the fetch it may fire, then the filter effect. */
    method SetSearchTerm(term: string, response: Result<PagedResult>)
      modifies this`searchTerm, this`currentPage, this`calls, this`loading, this`allJobs, this`totalPages,
               this`filteredJobs
      ensures searchTerm == term && currentPage == 1
      ensures old(currentPage) != 1 ==>
        calls == old(calls) + [GetByCompanyPaged(1, ItemsPerPage)] &&
        allJobs == (if response.Ok? then response.value.data else old(allJobs))
      ensures old(currentPage) == 1 ==> calls == old(calls) && allJobs == old(allJobs)
      ensures filteredJobs == MatchingOwnJobs(allJobs, selectedStatus, term)
    {
      searchTerm := term;
      ResetPage(response);
      ApplyFilters();
    }

    /** A new status: the reset effect and its fetch, then the filter effect. */
    method SetSelectedStatus(status: Option<int>, response: Result<PagedResult>)
      modifies this`selectedStatus, this`currentPage, this`calls, this`loading, this`allJobs, this`totalPages,
               this`filteredJobs
      ensures status == old(selectedStatus) ==> unchanged(this)
      ensures status != old(selectedStatus) ==> (selectedStatus == status && currentPage == 1)
      ensures status != old(selectedStatus) ==> (old(currentPage) != 1 ==>
        calls == old(calls) + [GetByCompanyPaged(1, ItemsPerPage)] &&
        allJobs == (if response.Ok? then response.value.data else old(allJobs)))
      ensures status != old(selectedStatus) ==> (old(currentPage) == 1 ==> calls == old(calls) && allJobs == old(allJobs))
      ensures status != old(selectedStatus) ==> (filteredJobs == MatchingOwnJobs(allJobs, status, searchTerm))
    {
      if status != selectedStatus {
        selectedStatus := status;
        ResetPage(response);
        ApplyFilters();
      }
    }

    /** A pagination click (lines 90-92, then the filter effect). */
    method ChangePage(p: int, response: Result<PagedResult>)
      modifies this`currentPage, this`calls, this`loading, this`allJobs, this`totalPages, this`filteredJobs
      ensures p == old(currentPage) ==> unchanged(this)
      ensures p != old(currentPage) ==> (currentPage == p && calls == old(calls) + [GetByCompanyPaged(p, ItemsPerPage)] && !loading)
      ensures p != old(currentPage) ==> (response.Ok? ==> allJobs == response.value.data && totalPages == response.value.totalPages)
      ensures p != old(currentPage) ==> (response.Err? ==> allJobs == old(allJobs) && totalPages == old(totalPages))
      ensures p != old(currentPage) ==> (filteredJobs == MatchingOwnJobs(allJobs, selectedStatus, searchTerm))
    {
      if p != currentPage {
        currentPage := p;
        FetchJobs(p, response);
        ApplyFilters();
      }
    }

    /** The table's delete action (lines 142-146). */
    method RequestDelete(id: string)
      modifies this`selectedJobId, this`dialogMessage, this`showDialog
      ensures selectedJobId == Some(id) && dialogMessage == DeletePrompt && showDialog
      ensures DialogButtons() == Buttons(id != "", false)
    {
      selectedJobId := Some(id);
      dialogMessage := DeletePrompt;
      showDialog := true;
    }

    /**
     * deleteJob (lines 73-88): nothing without a selection; otherwise one
     * delete call, a result message in the dialog, a refetch of the current
     * page after a success, and the selection cleared either way. A
     * refetched list reruns the filter effect (lines 94-107).
     */
    method DeleteJob(outcome: Outcome, refetch: Result<PagedResult>)
      modifies this`calls, this`loading, this`allJobs, this`totalPages, this`filteredJobs,
               this`dialogMessage, this`showDialog, this`selectedJobId
      ensures !Present(old(selectedJobId)) ==>
        calls == old(calls) && selectedJobId == old(selectedJobId) &&
        dialogMessage == old(dialogMessage) && showDialog == old(showDialog)
      ensures Present(old(selectedJobId)) ==>
        selectedJobId == None && showDialog && DialogButtons() == Buttons(false, true)
      ensures Present(old(selectedJobId)) && outcome.Done? ==>
        dialogMessage == DeletedMessage &&
        calls == old(calls) + [Delete(old(selectedJobId).value), GetByCompanyPaged(old(currentPage), ItemsPerPage)]
      ensures Present(old(selectedJobId)) && outcome.Failed? ==>
        dialogMessage == DeleteFailedMessage && calls == old(calls) + [Delete(old(selectedJobId).value)]
      ensures Present(old(selectedJobId)) && outcome.Done? && refetch.Ok? ==>
        allJobs == refetch.value.data && totalPages == refetch.value.totalPages &&
        filteredJobs == MatchingOwnJobs(allJobs, selectedStatus, searchTerm)
      ensures !Present(old(selectedJobId)) || outcome.Failed? || refetch.Err? ==>
        allJobs == old(allJobs) && filteredJobs == old(filteredJobs) && totalPages == old(totalPages)
      ensures currentPage == old(currentPage)
    {
      if Present(selectedJobId) {
        DeleteSelected(outcome, refetch);
      }
    }

    /** deleteJob once a post is selected (lines 76-87). */
    method DeleteSelected(outcome: Outcome, refetch: Result<PagedResult>)
      modifies this`calls, this`loading, this`allJobs, this`totalPages, this`filteredJobs,
               this`dialogMessage, this`showDialog, this`selectedJobId
      requires Present(selectedJobId)
      ensures selectedJobId == None && showDialog && DialogButtons() == Buttons(false, true)
      ensures outcome.Done? ==>
        dialogMessage == DeletedMessage &&
        calls == old(calls) + [Delete(old(selectedJobId).value), GetByCompanyPaged(currentPage, ItemsPerPage)]
      ensures outcome.Failed? ==>
        dialogMessage == DeleteFailedMessage && calls == old(calls) + [Delete(old(selectedJobId).value)]
      ensures outcome.Done? && refetch.Ok? ==>
        allJobs == refetch.value.data && totalPages == refetch.value.totalPages &&
        filteredJobs == MatchingOwnJobs(allJobs, selectedStatus, searchTerm)
      ensures outcome.Failed? || refetch.Err? ==>
        allJobs == old(allJobs) && filteredJobs == old(filteredJobs) && totalPages == old(totalPages)
    {
      calls := calls + [Delete(selectedJobId.value)];
      selectedJobId := None;
      if outcome.Done? {
        Deleted(refetch);
      } else {
        dialogMessage := DeleteFailedMessage;
        showDialog := true;
      }
    }

    /**
     * The success path of deleteJob (lines 78-80): the message, then a
     * refetch of the current page; a new list reruns the filter effect.
     */
    method Deleted(refetch: Result<PagedResult>)
      modifies this`calls, this`loading, this`allJobs, this`totalPages, this`filteredJobs,
               this`dialogMessage, this`showDialog
      ensures dialogMessage == DeletedMessage && showDialog
      ensures calls == old(calls) + [GetByCompanyPaged(currentPage, ItemsPerPage)] && !loading
      ensures refetch.Ok? ==>
        allJobs == refetch.value.data && totalPages == refetch.value.totalPages &&
        filteredJobs == MatchingOwnJobs(allJobs, selectedStatus, searchTerm)
      ensures refetch.Err? ==>
        allJobs == old(allJobs) && totalPages == old(totalPages) && filteredJobs == old(filteredJobs)
    {
      dialogMessage := DeletedMessage;
      showDialog := true;
      FetchJobs(currentPage, refetch);
      if refetch.Ok? {
        ApplyFilters();
      }
    }

    /** İptal (lines 169-177). */
    method Cancel()
      modifies this`showDialog, this`dialogMessage
      ensures !showDialog && dialogMessage == ""
      ensures !DialogButtons().delete
    {
      showDialog := false;
      dialogMessage := "";
    }

    /** Sil (lines 178-188): close the dialog and run deleteJob. */
    method ConfirmDelete(outcome: Outcome, refetch: Result<PagedResult>)
      modifies this`calls, this`loading, this`allJobs, this`totalPages, this`filteredJobs,
               this`dialogMessage, this`showDialog, this`selectedJobId
      requires DialogButtons().delete
      ensures selectedJobId == None && showDialog
      ensures outcome.Done? ==>
        dialogMessage == DeletedMessage &&
        calls == old(calls) + [Delete(old(selectedJobId).value), GetByCompanyPaged(old(currentPage), ItemsPerPage)]
      ensures outcome.Failed? ==>
        dialogMessage == DeleteFailedMessage && calls == old(calls) + [Delete(old(selectedJobId).value)]
      ensures outcome.Done? && refetch.Ok? ==>
        allJobs == refetch.value.data && filteredJobs == MatchingOwnJobs(allJobs, selectedStatus, searchTerm)
      ensures DialogButtons() == Buttons(false, true)
    {
      showDialog := false;
      DeleteJob(outcome, refetch);
    }

    /** Tamam (lines 189-199). */
    method Acknowledge()
      modifies this`showDialog, this`dialogMessage
      requires DialogButtons().ok
      ensures !showDialog && dialogMessage == ""
    {
      showDialog := false;
      dialogMessage := "";
    }
  }
}
