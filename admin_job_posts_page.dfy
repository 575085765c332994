/**
 * app/admin/job-posts/page.tsx: the admin's job-post list. Like the users
 * page it fetches one server page of 8 posts and slices the filtered result
 * again into pages of 8; deletion goes through a dialog with İptal and Sil
 * and reports by toast.
 */
module AdminJobPostsPage {
  import opened Common
  import opened Seqs
  import opened Text
  import opened Paging
  import opened Access
  import opened ListFilter
  import opened JobPostApi

  const ItemsPerPage := 8
  const DeletedToast := "İş ilanı başarıyla silindi."
  const DeleteFailedToast := "İş ilanı silinirken bir hata oluştu."

  function PostStatus(j: JobPost): int { j.applicationStatus }
  function SearchedFields(j: JobPost): seq<string> { [j.title, j.companyName] }

  /** The posts the filter effect keeps before slicing (lines 64-76). */
  function MatchingJobs(jobs: seq<JobPost>, status: Option<int>, term: string): (r: seq<JobPost>)
    ensures IsSubseq(r, jobs)
    ensures forall j :: j in jobs ==> (j in r <==>
      (status.None? || j.applicationStatus == status.value) &&
      (term == "" || IncludesCI(j.title, term) || IncludesCI(j.companyName, term)))
  {
    var r := StatusThenSearch(jobs, status, PostStatus, term, SearchedFields);
    forall j: JobPost {
      MatchesTwoFields(j.title, j.companyName, term);
    }
    r
  }

  class JobListPage {
    var allJobs: seq<JobPost>
    var filteredJobs: seq<JobPost>
    var searchTerm: string
    var selectedStatus: Option<int>
    var currentPage: int
    var totalPages: int
    var loading: bool
    var deleteDialogOpen: bool
    var selectedJobId: Option<string>
    var deleteLoading: bool
    var calls: seq<ListCall>
    var navigations: seq<Target>
    /** Descriptions of the toasts shown, in order. */
    var toasts: seq<string>

    /** The initial state (lines 19-28). */
    constructor ()
      ensures allJobs == [] && filteredJobs == [] && searchTerm == "" && selectedStatus == None
      ensures currentPage == 1 && totalPages == 0 && loading
      ensures !deleteDialogOpen && selectedJobId == None && !deleteLoading
      ensures calls == [] && navigations == [] && toasts == []
    {
      allJobs := [];
      filteredJobs := [];
      searchTerm := "";
      selectedStatus := None;
      currentPage := 1;
      totalPages := 0;
      loading := true;
      deleteDialogOpen := false;
      selectedJobId := None;
      deleteLoading := false;
      calls := [];
      navigations := [];
      toasts := [];
    }

    /**
     * The guard run while rendering (lines 34-44): the page renders only for
     * an admin token; otherwise it redirects and renders nothing.
     */
    method CheckAccess(token: Option<string>, role: Option<string>) returns (renders: bool)
      modifies this`navigations
      ensures navigations == old(navigations) + Pushes(GuardRedirect(token, role, "/admin/login", "Admin"))
      ensures renders <==> GuardRedirect(token, role, "/admin/login", "Admin").None?
    {
      if !Present(token) {
        navigations := navigations + [PathOnly("/admin/login")];
        return false;
      }
      if role != Some("Admin") {
        navigations := navigations + [PathOnly("/")];
        return false;
      }
      return true;
    }

    /** fetchJobs (lines 46-57): one call for server page `page` of 8 posts. */
    method FetchJobs(page: int, response: Result<PagedResult>)
      modifies this`calls, this`loading, this`allJobs, this`totalPages
      ensures calls == old(calls) + [GetPaged(page, ItemsPerPage)]
      ensures response.Ok? ==> allJobs == response.value.data && totalPages == response.value.totalPages
      ensures response.Err? ==> allJobs == old(allJobs) && totalPages == old(totalPages)
      ensures !loading
    {
      loading := true;
      calls := calls + [GetPaged(page, ItemsPerPage)];
      if response.Ok? {
        allJobs := response.value.data;
        totalPages := response.value.totalPages;
      }
      loading := false;
    }

    /** What the filter effect (lines 63-80) leaves on screen for the loaded list. */
    ghost predicate ShowsMatches()
      reads this`allJobs, this`selectedStatus, this`searchTerm, this`currentPage, this`totalPages, this`filteredJobs
    {
      totalPages == PageCount(|MatchingJobs(allJobs, selectedStatus, searchTerm)|, ItemsPerPage) &&
      filteredJobs == PageView(MatchingJobs(allJobs, selectedStatus, searchTerm), currentPage, ItemsPerPage)
    }

    /** The filter effect (lines 63-80). */
    method ApplyFilters()
      modifies this`totalPages, this`filteredJobs
      ensures totalPages == PageCount(|MatchingJobs(allJobs, selectedStatus, searchTerm)|, ItemsPerPage)
      ensures filteredJobs == PageView(MatchingJobs(allJobs, selectedStatus, searchTerm), currentPage, ItemsPerPage)
      ensures forall j :: j in filteredJobs ==> j in allJobs
    {
      var jobs := allJobs;
      if selectedStatus.Some? {
        jobs := ByStatus(jobs, selectedStatus, PostStatus);
      }
      assert jobs == ByStatus(allJobs, selectedStatus, PostStatus);
      if searchTerm != "" {
        jobs := BySearch(jobs, searchTerm, SearchedFields);
      }
      assert jobs == MatchingJobs(allJobs, selectedStatus, searchTerm);
      totalPages := PageCount(|jobs|, ItemsPerPage);
      var startIndex := (currentPage - 1) * ItemsPerPage;
      filteredJobs := JsSlice(jobs, startIndex, startIndex + ItemsPerPage);
      SliceIsPage(jobs, currentPage, ItemsPerPage);
      PageMembers(jobs, currentPage, ItemsPerPage);
      SubseqMembers(jobs, allJobs);
    }

    /**
     * The reset effect (lines 82-84): back to page 1. When the page was
     * another one, the change fires the fetch effect (lines 59-61) for
     * server page 1; on page 1 already nothing is fetched.
     */
    method ResetPage(response: Result<PagedResult>)
      modifies this`currentPage, this`calls, this`loading, this`allJobs, this`totalPages
      ensures currentPage == 1
      ensures old(currentPage) != 1 ==>
        calls == old(calls) + [GetPaged(1, ItemsPerPage)] && !loading &&
        allJobs == (if response.Ok? then response.value.data else old(allJobs))
      ensures old(currentPage) == 1 ==>
        calls == old(calls) && loading == old(loading) && allJobs == old(allJobs) && totalPages == old(totalPages)
    {
      if currentPage != 1 {
        currentPage := 1;
        FetchJobs(1, response);
      }
    }

    /** A new search term: the reset effect and the fetch it may fire, then the filter effect. */
    method SetSearchTerm(term: string, response: Result<PagedResult>)
      modifies this`searchTerm, this`currentPage, this`calls, this`loading, this`allJobs, this`totalPages,
               this`filteredJobs
      ensures searchTerm == term && currentPage == 1
      ensures old(currentPage) != 1 ==>
        calls == old(calls) + [GetPaged(1, ItemsPerPage)] &&
        allJobs == (if response.Ok? then response.value.data else old(allJobs))
      ensures old(currentPage) == 1 ==> calls == old(calls) && allJobs == old(allJobs)
      ensures filteredJobs == PageView(MatchingJobs(allJobs, selectedStatus, term), 1, ItemsPerPage)
      ensures totalPages == PageCount(|MatchingJobs(allJobs, selectedStatus, term)|, ItemsPerPage)
    {
      searchTerm := term;
      ResetPage(response);
      ApplyFilters();
    }

    /** A new status (null for "Tümü"): the reset effect and its fetch, then the filter effect. */
    method SetSelectedStatus(status: Option<int>, response: Result<PagedResult>)
      modifies this`selectedStatus, this`currentPage, this`calls, this`loading, this`allJobs, this`totalPages,
               this`filteredJobs
      ensures status == old(selectedStatus) ==> unchanged(this)
      ensures status != old(selectedStatus) ==> (selectedStatus == status && currentPage == 1)
      ensures status != old(selectedStatus) ==> (old(currentPage) != 1 ==>
        calls == old(calls) + [GetPaged(1, ItemsPerPage)] &&
        allJobs == (if response.Ok? then response.value.data else old(allJobs)))
      ensures status != old(selectedStatus) ==> (old(currentPage) == 1 ==> calls == old(calls) && allJobs == old(allJobs))
      ensures status != old(selectedStatus) ==> (filteredJobs == PageView(MatchingJobs(allJobs, status, searchTerm), 1, ItemsPerPage))
      ensures status != old(selectedStatus) ==> (totalPages == PageCount(|MatchingJobs(allJobs, status, searchTerm)|, ItemsPerPage))
    {
      if status != selectedStatus {
        selectedStatus := status;
        ResetPage(response);
        ApplyFilters();
      }
    }

    /**
     * A pagination click (lines 59-61, then the filter effect). With a
     * server page of at most 8 posts every page from 2 on is empty.
     */
    method ChangePage(p: int, response: Result<PagedResult>)
      modifies this`currentPage, this`calls, this`loading, this`allJobs, this`totalPages, this`filteredJobs
      ensures p == old(currentPage) ==> unchanged(this)
      ensures p != old(currentPage) ==> (currentPage == p && calls == old(calls) + [GetPaged(p, ItemsPerPage)] && !loading)
      ensures p != old(currentPage) ==> (response.Ok? ==> allJobs == response.value.data)
      ensures p != old(currentPage) ==> (response.Err? ==> allJobs == old(allJobs))
      ensures p != old(currentPage) ==> (filteredJobs == PageView(MatchingJobs(allJobs, selectedStatus, searchTerm), p, ItemsPerPage))
      ensures p != old(currentPage) ==> (response.Ok? && |response.value.data| <= ItemsPerPage && p >= 2 ==>
        filteredJobs == [] && totalPages <= 1)
    {
      if p != currentPage {
        currentPage := p;
        FetchJobs(p, response);
        ApplyFilters();
        var matching := MatchingJobs(allJobs, selectedStatus, searchTerm);
        if response.Ok? && |response.value.data| <= ItemsPerPage && p >= 2 {
          SubseqMembers(matching, allJobs);
          ServerPageCollapse(matching, p, ItemsPerPage);
        }
      }
    }

    /** handleDelete (lines 89-92): select the post and open the dialog. */
    method HandleDelete(id: string)
      modifies this`selectedJobId, this`deleteDialogOpen
      ensures selectedJobId == Some(id) && deleteDialogOpen
    {
      selectedJobId := Some(id);
      deleteDialogOpen := true;
    }

    /** İptal (lines 169-175): close the dialog; the selection stays. */
    method Cancel()
      modifies this`deleteDialogOpen
      requires !deleteLoading
      ensures !deleteDialogOpen
    {
      deleteDialogOpen := false;
    }

    /**
     * confirmDelete (lines 94-117), the Sil button: nothing without a
     * selection; otherwise one delete call, a toast for the result, a refetch
     * after a success, and afterwards the dialog closed, the selection
     * cleared and the button enabled again. A refetched list reruns the
     * filter effect (lines 63-80).
     */
    method ConfirmDelete(outcome: Outcome, refetch: Result<PagedResult>)
      modifies this`calls, this`loading, this`allJobs, this`totalPages, this`filteredJobs,
               this`toasts, this`deleteLoading, this`deleteDialogOpen, this`selectedJobId
      requires !deleteLoading
      ensures !Present(old(selectedJobId)) ==>
        calls == old(calls) && toasts == old(toasts) && selectedJobId == old(selectedJobId) &&
        deleteDialogOpen == old(deleteDialogOpen)
      ensures Present(old(selectedJobId)) ==> !deleteDialogOpen && selectedJobId == None
      ensures Present(old(selectedJobId)) && outcome.Done? ==>
        toasts == old(toasts) + [DeletedToast] &&
        calls == old(calls) + [Delete(old(selectedJobId).value), GetPaged(old(currentPage), ItemsPerPage)]
      ensures Present(old(selectedJobId)) && outcome.Failed? ==>
        toasts == old(toasts) + [DeleteFailedToast] && calls == old(calls) + [Delete(old(selectedJobId).value)]
      ensures Present(old(selectedJobId)) && outcome.Done? && refetch.Ok? ==>
        allJobs == refetch.value.data && ShowsMatches()
      ensures !Present(old(selectedJobId)) || outcome.Failed? || refetch.Err? ==>
        allJobs == old(allJobs) && filteredJobs == old(filteredJobs) && totalPages == old(totalPages)
      ensures !deleteLoading && currentPage == old(currentPage)
    {
      if Present(selectedJobId) {
        DeleteSelected(outcome, refetch);
      }
    }

    /** confirmDelete once a post is selected (lines 97-116). */
    method DeleteSelected(outcome: Outcome, refetch: Result<PagedResult>)
      modifies this`calls, this`loading, this`allJobs, this`totalPages, this`filteredJobs,
               this`toasts, this`deleteLoading, this`deleteDialogOpen, this`selectedJobId
      requires Present(selectedJobId)
      ensures !deleteDialogOpen && selectedJobId == None && !deleteLoading
      ensures outcome.Done? ==>
        toasts == old(toasts) + [DeletedToast] &&
        calls == old(calls) + [Delete(old(selectedJobId).value), GetPaged(currentPage, ItemsPerPage)]
      ensures outcome.Failed? ==>
        toasts == old(toasts) + [DeleteFailedToast] && calls == old(calls) + [Delete(old(selectedJobId).value)]
      ensures outcome.Done? && refetch.Ok? ==> allJobs == refetch.value.data && ShowsMatches()
      ensures outcome.Failed? || refetch.Err? ==>
        allJobs == old(allJobs) && filteredJobs == old(filteredJobs) && totalPages == old(totalPages)
    {
      deleteLoading := true;
      calls := calls + [Delete(selectedJobId.value)];
      if outcome.Done? {
        Deleted(refetch);
      } else {
        toasts := toasts + [DeleteFailedToast];
      }
      Settle();
    }

    /** The finally block of confirmDelete (lines 112-116). */
    method Settle()
      modifies this`deleteLoading, this`deleteDialogOpen, this`selectedJobId
      ensures !deleteLoading && !deleteDialogOpen && selectedJobId == None
    {
      deleteLoading := false;
      deleteDialogOpen := false;
      selectedJobId := None;
    }

    /**
     * The success path of confirmDelete (lines 100-104): the toast, then a
     * refetch of the current page; a new list reruns the filter effect.
     */
    method Deleted(refetch: Result<PagedResult>)
      modifies this`calls, this`loading, this`allJobs, this`totalPages, this`filteredJobs, this`toasts
      ensures toasts == old(toasts) + [DeletedToast]
      ensures calls == old(calls) + [GetPaged(currentPage, ItemsPerPage)] && !loading
      ensures refetch.Ok? ==> allJobs == refetch.value.data && ShowsMatches()
      ensures refetch.Err? ==>
        allJobs == old(allJobs) && totalPages == old(totalPages) && filteredJobs == old(filteredJobs)
    {
      toasts := toasts + [DeletedToast];
      FetchJobs(currentPage, refetch);
      if refetch.Ok? {
        ApplyFilters();
      }
    }
  }
}
