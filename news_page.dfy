/**
 * app/admin/news/page.tsx: the admin's news list. Its guard does not stop
 * after the first redirect, its filter searches title and description, and
 * a deletion closes the confirm dialog and opens a success dialog.
 */
module NewsPage {
  import opened Common
  import opened Seqs
  import opened Text
  import opened ListFilter
  import opened NewsApi
  import opened JobPostApi

  const ItemsPerPage := 8

  /**
   * The guard (lines 46-56): without a token it pushes the login page and
   * then, since the role of a missing token is null, also "/".
   */
  function GuardPushes(token: Option<string>, role: Option<string>): (r: seq<Target>)
    ensures !Present(token) && role != Some("Admin") ==> r == [PathOnly("/admin/login"), PathOnly("/")]
    ensures Present(token) && role == Some("Admin") ==> r == []
    ensures |r| <= 2
  {
    (if !Present(token) then [PathOnly("/admin/login")] else []) +
    (if role != Some("Admin") then [PathOnly("/")] else [])
  }

  /** getRoleFromToken gives null for a missing token, so a visit without a token ends on "/". */
  lemma NoTokenEndsHome(token: Option<string>)
    requires token.None?
    ensures GuardPushes(token, None) == [PathOnly("/admin/login"), PathOnly("/")]
    ensures GuardPushes(token, None)[|GuardPushes(token, None)| - 1] == PathOnly("/")
  {
  }

  /** The news the filter effect shows (lines 75-86). */
  function MatchingNews(news: seq<News>, term: string): (r: seq<News>)
    ensures IsSubseq(r, news)
    ensures forall n :: n in news ==> (n in r <==>
      term == "" || IncludesCI(n.title, term) || IncludesCI(n.description, term))
    ensures term == "" ==> r == news
  {
    var r := BySearch(news, term, (n: News) => [n.title, n.description]);
    forall n: News {
      MatchesTwoFields(n.title, n.description, term);
    }
    r
  }

  class NewsListPage {
    var newsList: seq<News>
    var currentPage: int
    var totalPages: int
    var searchTerm: string
    var filteredNews: seq<News>
    var loading: bool
    var deleting: bool
    var selectedNews: Option<string>
    var dialogOpen: bool
    var successDialogOpen: bool
    var calls: seq<ListCall>
    var navigations: seq<Target>

    /** The initial state (lines 32-41). */
    constructor ()
      ensures newsList == [] && currentPage == 1 && totalPages == 1 && searchTerm == "" && filteredNews == []
      ensures loading && !deleting && selectedNews == None && !dialogOpen && !successDialogOpen
      ensures calls == [] && navigations == []
    {
      newsList := [];
      currentPage := 1;
      totalPages := 1;
      searchTerm := "";
      filteredNews := [];
      loading := true;
      deleting := false;
      selectedNews := None;
      dialogOpen := false;
      successDialogOpen := false;
      calls := [];
      navigations := [];
    }

    /** The guard effect (lines 46-56). */
    method CheckAccess(token: Option<string>, role: Option<string>)
      modifies this`navigations
      ensures navigations == old(navigations) + GuardPushes(token, role)
    {
      if !Present(token) {
        navigations := navigations + [PathOnly("/admin/login")];
      }
      if role != Some("Admin") {
        navigations := navigations + [PathOnly("/")];
      }
    }

    /** fetchNews (lines 58-69): newsAPI.getPaged for page `page` of 8. */
    method FetchNews(page: int, response: Response<RawNewsPage>)
      modifies this`calls, this`loading, this`newsList, this`totalPages
      ensures calls == old(calls) + [ListCall.GetPaged(page, ItemsPerPage)]
      ensures NewsApi.GetPaged(ItemsPerPage, response).Ok? ==>
        newsList == NewsApi.GetPaged(ItemsPerPage, response).value.data &&
        totalPages == NewsApi.GetPaged(ItemsPerPage, response).value.totalPages
      ensures NewsApi.GetPaged(ItemsPerPage, response).Err? ==> newsList == old(newsList) && totalPages == old(totalPages)
      ensures !loading
    {
      loading := true;
      calls := calls + [ListCall.GetPaged(page, ItemsPerPage)];
      var result := NewsApi.GetPaged(ItemsPerPage, response);
      if result.Ok? {
        newsList := result.value.data;
        totalPages := result.value.totalPages;
      }
      loading := false;
    }

    /** The filter effect (lines 75-86). */
    method ApplyFilters()
      modifies this`filteredNews
      ensures filteredNews == MatchingNews(newsList, searchTerm)
    {
      if searchTerm != "" {
        filteredNews := BySearch(newsList, searchTerm, (n: News) => [n.title, n.description]);
      } else {
        filteredNews := newsList;
      }
    }

    /** A new search term; the page has no reset effect. */
    method SetSearchTerm(term: string)
      modifies this`searchTerm, this`filteredNews
      ensures searchTerm == term && filteredNews == MatchingNews(newsList, term)
    {
      searchTerm := term;
      ApplyFilters();
    }

    /**
     * A pagination click (line 216). Setting the page it already shows changes
     * nothing; another page runs the page effect (lines 71-73), and the list it
     * stores on success reruns the filter effect.
     */
    method ChangePage(p: int, response: Response<RawNewsPage>)
      modifies this`currentPage, this`calls, this`loading, this`newsList, this`totalPages, this`filteredNews
      ensures p == old(currentPage) ==> unchanged(this)
      ensures p != old(currentPage) ==> currentPage == p && calls == old(calls) + [ListCall.GetPaged(p, ItemsPerPage)] && !loading
      ensures p != old(currentPage) && NewsApi.GetPaged(ItemsPerPage, response).Ok? ==>
        newsList == NewsApi.GetPaged(ItemsPerPage, response).value.data &&
        totalPages == NewsApi.GetPaged(ItemsPerPage, response).value.totalPages &&
        filteredNews == MatchingNews(newsList, searchTerm)
      ensures p != old(currentPage) && NewsApi.GetPaged(ItemsPerPage, response).Err? ==>
        newsList == old(newsList) && totalPages == old(totalPages) && filteredNews == old(filteredNews)
    {
      if p != currentPage {
        currentPage := p;
        FetchNews(p, response);
        if NewsApi.GetPaged(ItemsPerPage, response).Ok? {
          ApplyFilters();
        }
      }
    }

    /** confirmDelete (lines 105-108): select the news item and open the confirm dialog. */
    method ConfirmDelete(id: string)
      modifies this`selectedNews, this`dialogOpen
      ensures selectedNews == Some(id) && dialogOpen
    {
      selectedNews := Some(id);
      dialogOpen := true;
    }

    /** The confirm dialog's cancel button. */
    method CancelDelete()
      modifies this`dialogOpen
      ensures !dialogOpen
    {
      dialogOpen := false;
    }

    /**
     * handleDelete (lines 88-103): nothing without a selection; otherwise one
     * delete call. A success closes the confirm dialog, opens the success
     * dialog and refetches, and a refetched list reruns the filter effect
     * (lines 75-86); a failure leaves both dialogs as they were. The
     * selection is cleared either way.
     */
    method HandleDelete(outcome: Outcome, refetch: Response<RawNewsPage>)
      modifies this`calls, this`loading, this`newsList, this`totalPages, this`filteredNews,
               this`deleting, this`dialogOpen, this`successDialogOpen, this`selectedNews
      ensures !Present(old(selectedNews)) ==>
        calls == old(calls) && selectedNews == old(selectedNews) &&
        dialogOpen == old(dialogOpen) && successDialogOpen == old(successDialogOpen)
      ensures Present(old(selectedNews)) ==> selectedNews == None && !deleting
      ensures Present(old(selectedNews)) && outcome.Done? ==>
        !dialogOpen && successDialogOpen &&
        calls == old(calls) + [Delete(old(selectedNews).value), ListCall.GetPaged(old(currentPage), ItemsPerPage)]
      ensures Present(old(selectedNews)) && outcome.Failed? ==>
        dialogOpen == old(dialogOpen) && successDialogOpen == old(successDialogOpen) &&
        calls == old(calls) + [Delete(old(selectedNews).value)]
      ensures Present(old(selectedNews)) && outcome.Done? && NewsApi.GetPaged(ItemsPerPage, refetch).Ok? ==>
        newsList == NewsApi.GetPaged(ItemsPerPage, refetch).value.data &&
        filteredNews == MatchingNews(newsList, searchTerm)
      ensures !Present(old(selectedNews)) || outcome.Failed? || NewsApi.GetPaged(ItemsPerPage, refetch).Err? ==>
        newsList == old(newsList) && filteredNews == old(filteredNews) && totalPages == old(totalPages)
      ensures currentPage == old(currentPage)
    {
      if Present(selectedNews) {
        DeleteSelected(outcome, refetch);
      }
    }

    /** handleDelete once a news item is selected (lines 91-102). */
    method DeleteSelected(outcome: Outcome, refetch: Response<RawNewsPage>)
      modifies this`calls, this`loading, this`newsList, this`totalPages, this`filteredNews,
               this`deleting, this`dialogOpen, this`successDialogOpen, this`selectedNews
      requires Present(selectedNews)
      ensures selectedNews == None && !deleting
      ensures outcome.Done? ==>
        !dialogOpen && successDialogOpen &&
        calls == old(calls) + [Delete(old(selectedNews).value), ListCall.GetPaged(currentPage, ItemsPerPage)]
      ensures outcome.Failed? ==>
        dialogOpen == old(dialogOpen) && successDialogOpen == old(successDialogOpen) &&
        calls == old(calls) + [Delete(old(selectedNews).value)]
      ensures outcome.Done? && NewsApi.GetPaged(ItemsPerPage, refetch).Ok? ==>
        newsList == NewsApi.GetPaged(ItemsPerPage, refetch).value.data &&
        filteredNews == MatchingNews(newsList, searchTerm)
      ensures outcome.Failed? || NewsApi.GetPaged(ItemsPerPage, refetch).Err? ==>
        newsList == old(newsList) && filteredNews == old(filteredNews) && totalPages == old(totalPages)
    {
      deleting := true;
      calls := calls + [Delete(selectedNews.value)];
      if outcome.Done? {
        Deleted(refetch);
      }
      Settle();
    }

    /**
     * The success path of handleDelete (lines 94-96): the dialogs swap, then
     * a refetch of the current page; a new list reruns the filter effect.
     */
    method Deleted(refetch: Response<RawNewsPage>)
      modifies this`calls, this`loading, this`newsList, this`totalPages, this`filteredNews,
               this`dialogOpen, this`successDialogOpen
      ensures !dialogOpen && successDialogOpen
      ensures calls == old(calls) + [ListCall.GetPaged(currentPage, ItemsPerPage)] && !loading
      ensures NewsApi.GetPaged(ItemsPerPage, refetch).Ok? ==>
        newsList == NewsApi.GetPaged(ItemsPerPage, refetch).value.data &&
        totalPages == NewsApi.GetPaged(ItemsPerPage, refetch).value.totalPages &&
        filteredNews == MatchingNews(newsList, searchTerm)
      ensures NewsApi.GetPaged(ItemsPerPage, refetch).Err? ==>
        newsList == old(newsList) && totalPages == old(totalPages) && filteredNews == old(filteredNews)
    {
      dialogOpen := false;
      successDialogOpen := true;
      FetchNews(currentPage, refetch);
      if NewsApi.GetPaged(ItemsPerPage, refetch).Ok? {
        ApplyFilters();
      }
    }

    /** The finally block of handleDelete (lines 99-102). */
    method Settle()
      modifies this`deleting, this`selectedNews
      ensures !deleting && selectedNews == None
    {
      deleting := false;
      selectedNews := None;
    }

    /** The success dialog's Tamam. */
    method CloseSuccess()
      modifies this`successDialogOpen
      ensures !successDialogOpen
    {
      successDialogOpen := false;
    }
  }
}
