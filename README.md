# bio_fronted job board: a Dafny model of its page logic

The job board is a Next.js front end with pages for job seekers, companies,
admins and the super-admin. This project models the rules those pages apply
between two backend calls:

- the page strip under every paged list;
- the admin list pages: their status and search filters, their local paging,
  and their delete-confirm dialogs;
- bit-mask checkbox groups: the XOR toggle, the `mask & flag` checked test,
  the OR-fold of comma lists, and the ", "-joined label rendering;
- the public listing's filter state: how it is written into the URL query
  and read back, the home page's search box that feeds that query, and the
  API's filter-cleaning step;
- the date picker's navigation, and the approve / reject / pending dialog;
- the settings pages' password and details handlers, the job seeker's
  registration form, and the admin login's role routing and error wording;
- the job-post and resume forms, and the job seeker's profile page;
- the home page's per-category histogram of the latest posts.

Pages become classes. Each class's fields are the page's React state, and
each handler is a method that updates them. Backend calls, router pushes and
toasts are recorded in sequences on the page (`calls`, `navigations`,
`toasts`). The result of a backend call (success, failure, or the payload)
is a parameter of the handler that awaits it. A handler also runs the
effects its own state changes trigger: a filter setter sets page 1 and, only
when the page was something else, fetches server page 1 through the page
effect, then reruns the filter effect; a delete handler's refetch, when it
succeeds, reruns the filter effect on the new list. The result of each
fetch an effect makes is one more handler parameter. Pure helpers (filters, toggles, query building, label rendering)
are functions, and lemmas state how they relate to each other.

Shared modules:

- `Common`: optional values, results, router targets and form values.
- `Seqs`: subsequences, `filter` and occurrence counts.
- `Text`: ASCII `toLowerCase`, `includes`, `join` and `split`.
- `Numerals`: `toString`, `Number`, `parseInt` and ToInt32 on decimal
  numerals.
- `Paging`: `Math.ceil` and `slice` paging.
- `Flags`: bit-mask checkboxes.
- `ListFilter`: the status and search stages of the list filters.
- `ConfirmDialog`: the Sil / Tamam button rule.
- `Access`: the token and role guard.

## Model

| member | source | states |
|---|---|---|
| PaginationCustom.GeneratePageNumbers | components/custom/PaginationCustom.tsx:17-34 | For at least two pages the strip starts with 1 and ends with the last page. It has at most nine entries. Its numbers strictly increase, and neighbouring numbers are consecutive. It never has two ellipses side by side. It lists page p exactly when p is 1, the last page, or a middle page within 2 of the current one. For a current page in range, the opening ellipsis appears exactly when current−2 > 2 and the closing one exactly when current+2 < total−1, and each ellipsis skips at least one page |
| PaginationCustom.Render | components/custom/PaginationCustom.tsx:15-36 | Nothing is rendered exactly when totalPages ≤ 1; otherwise the strip has all the properties above |
| PaginationCustom.Run | components/custom/PaginationCustom.tsx:26-28 | The `for` loop's buttons: to−from entries, the k-th being page from+k |
| PaginationCustom.LayoutFacts | components/custom/PaginationCustom.tsx:20-31 | The list built from startPage = max(2, c−2) and endPage = min(t−1, c+2), with the two conditional ellipses, satisfies the strip properties |
| PaginationCustom.LayoutLists | components/custom/PaginationCustom.tsx:20-31 | A page number appears in the layout exactly when it is listed (1, the last page, or within 2 of the current page) |
| PaginationCustom.LayoutNumber | components/custom/PaginationCustom.tsx:23-31 | The number at each position: 1 first, startPage+k−h inside the run (always in 2..t−1), the last page last, and no number anywhere else |
| PaginationCustom.LayoutOrdered | components/custom/PaginationCustom.tsx:23-31 | The layout's numbers are strictly increasing and adjacent numbers with no ellipsis between them are consecutive |
| PaginationCustom.LayoutInRange | components/custom/PaginationCustom.tsx:24-30 | For 1 ≤ current ≤ total each ellipsis appears exactly under its condition and hides at least one page |
| PaginationCustom.PreviousTarget | components/custom/PaginationCustom.tsx:43-44 | "Önceki" is disabled exactly on page 1, and otherwise asks for exactly the page before |
| PaginationCustom.NextTarget | components/custom/PaginationCustom.tsx:73-74 | "Sonraki" is disabled exactly on the last page, and otherwise asks for exactly the page after |
| PaginationCustom.TargetsStayInRange | components/custom/PaginationCustom.tsx:43-74 | From a page within 1..total, both buttons only ask for pages within 1..total |
| PaginationCustom.PreviousThenNext | components/custom/PaginationCustom.tsx:44-74 | "Önceki" followed by "Sonraki" comes back to the starting page |
| Paging.CeilDiv | app/super-admin/users/page.tsx:102 | `Math.ceil(n / d)` is the least r with n ≤ d·r, and it is non-negative for n ≥ 0 |
| Paging.Clamp | app/super-admin/users/page.tsx:104 | A slice index is clamped into [0, len] and is kept as it is when already inside |
| Paging.JsSlice | app/super-admin/users/page.tsx:104 | `slice` gives xs[start..end] for in-range bounds, and [] from a start at or past the end |
| Paging.PageCount | app/super-admin/users/page.tsx:102 | Zero items give zero pages, and any item gives at least one page |
| Paging.PageView | app/super-admin/users/page.tsx:103-104 | Page p holds at most `size` items: the items from (p−1)·size to p·size, clipped to the list |
| Paging.FirstPagesArePrefix | app/super-admin/users/page.tsx:103-104 | Pages 1..k laid end to end are the first k·size items |
| Paging.PagesCoverAll | app/super-admin/users/page.tsx:102-104 | Pages 1..ceil(n/size) concatenate to the whole list, each item once and in order |
| Paging.PastLastPageEmpty | app/super-admin/users/page.tsx:103-104 | A page past the page count is empty |
| Paging.ServerPageCollapse | app/super-admin/users/page.tsx:56-58 | A list of at most `size` items (such as the server page of that size just fetched) counts at most one page, and every page from 2 on is empty |
| Seqs.FilterSeq | app/super-admin/users/page.tsx:91 | `filter` keeps, in order, exactly the elements that pass, and keeps everything when everything passes |
| Seqs.FilterAppend | app/super-admin/users/page.tsx:91 | Filtering a list with one more element filters that element on its own |
| Seqs.Count | components/JobListings.tsx:28-31 | An occurrence count is at most the length, and it is positive exactly when the element occurs |
| Text.Split | app/job-posts/page.tsx:86 | `split` on one character gives at least one piece, and no piece holds the separator |
| Text.SplitJoin | app/job-posts/page.tsx:100-118 | Splitting a `join` on that separator gives the parts back, when no part holds it |
| Numerals.NatToString | app/admin/companies/page.tsx:114 | `n.toString()` of a natural number is a non-empty digit string |
| Numerals.NatToStringRoundTrip | app/admin/companies/page.tsx:114 | Reading the decimal numeral of n back gives n |
| Numerals.JsNumber | app/job-posts/page.tsx:94 | `Number(s)`: a digit string is its value, and the result is NaN exactly when s is non-empty and not an optionally negated digit string |
| Numerals.NumberOfToString | app/job-posts/page.tsx:100-120 | `Number(x.toString())` is x, NaN included |
| Numerals.ParseDecimal | app/admin/companies/page.tsx:114 | `parseInt(s, 10)` on a select value agrees with `Number(s)` |
| Flags.Toggle | app/company/job-post-add/page.tsx:80 | `mask ^ flag` differs from the mask only in the bits of the flag, and undoing it with the flag gives the mask |
| Flags.ToggleTwice | app/company/job-post-add/page.tsx:80 | Toggling twice with the same flag restores the mask |
| Flags.ToggleFlipsOnlyItsBox | app/company/job-post-add/page.tsx:217 | For single-bit flags a toggle flips its own box's `(mask & flag) !== 0` test and leaves every other flag's test as it was |
| Flags.OrFoldCovers | app/job-posts/page.tsx:86 | Every listed value's bits are set in the OR-fold |
| Flags.OrFoldLeast | app/job-posts/page.tsx:86 | The OR-fold sets no bit that no listed value sets |
| Flags.OrFoldSameMembers | app/job-posts/page.tsx:86 | The OR-fold depends only on which values occur, not on their order or repetition |
| Flags.OrFoldChecks | app/job-posts/page.tsx:86 | A single-bit flag is checked in the fold exactly when some listed value has it checked |
| ListFilter.ByStatus | app/super-admin/users/page.tsx:90-92 | The status stage keeps, in order, exactly the rows with the selected status, and all rows when no status is selected |
| ListFilter.BySearch | app/super-admin/users/page.tsx:94-100 | The search stage keeps, in order, exactly the rows one of whose fields contains the term case-insensitively, and all rows for an empty term |
| ListFilter.StatusThenSearch | app/super-admin/users/page.tsx:88-100 | Both stages together keep, in order, exactly the rows passing both tests, and everything when neither filter is set |
| ListFilter.MatchesOneField | app/company/job-post/page.tsx:101-105 | With one searched field, a row matches exactly when the term is empty or that field contains it |
| ListFilter.MatchesTwoFields | app/super-admin/users/page.tsx:94-100 | With two searched fields, a row matches exactly when the term is empty or either field contains it |
| ConfirmDialog.ButtonsFor | app/super-admin/users/page.tsx:186-207 | Sil and Tamam are never both offered. Tamam is offered exactly when the text differs from the question. Nothing is offered only when the question is up with no row selected |
| Access.GuardRedirect | app/user/resume/add/page.tsx:33-44 | The guard stays exactly when there is a token with the page's role. Without a token it goes to the login page, and with a token of another role it goes to "/" |
| Access.Pushes | app/user/resume/add/page.tsx:33-44 | A guard makes at most one router push, and none exactly when it stays |
| UsersPage.MatchingUsers | app/super-admin/users/page.tsx:88-100 | The users kept are an order-preserving subsequence of the fetched page. They are exactly those with the selected approvalStatus (any, when none is selected) whose fullName or email contains the term case-insensitively (always, for an empty term) |
| UsersPage.UserListPage.constructor | app/super-admin/users/page.tsx:25-34 | The initial state: empty lists, page 1 of 0 pages, loading, no selection, dialog closed |
| UsersPage.UserListPage.DialogButtons | app/super-admin/users/page.tsx:186-207 | Sil and Tamam are never offered together, and Sil is offered exactly when a user is selected and the dialog holds the question |
| UsersPage.UserListPage.CheckAccess | app/super-admin/users/page.tsx:39-51 | No token goes to /admin/login, a role other than SuperAdmin goes to "/", and a super-admin stays |
| UsersPage.UserListPage.FetchUsers | app/super-admin/users/page.tsx:53-64 | One call for server page `page` of 8. A success stores the list and the server's page count, a failure keeps both, and loading ends |
| UsersPage.UserListPage.ApplyFilters | app/super-admin/users/page.tsx:87-105 | The page count is ceil(matches/8) and the shown users are page currentPage of the matches, all of them fetched users |
| UsersPage.UserListPage.ResetPage | app/super-admin/users/page.tsx:83-85 | The reset effect (lines 107-109) sets page 1. Only when the page changes does the page effect run, with one call for server page 1 whose list is stored on success; on page 1 nothing is called and nothing changes |
| UsersPage.UserListPage.SetSearchTerm | app/super-admin/users/page.tsx:83-109 | The term is stored and the page goes back to 1. When it was on another page, server page 1 is fetched and stored (or kept on failure); on page 1 nothing is fetched. The page count is then ceil(matches/8) and the first 8 matches of the new term are shown |
| UsersPage.UserListPage.SetSelectedStatus | app/super-admin/users/page.tsx:83-109 | Choosing the status already selected changes nothing. Otherwise the status is stored and the page goes back to 1. When it was on another page, server page 1 is fetched and stored; on page 1 nothing is fetched. The page count is then ceil(matches/8) and the first 8 matches are shown |
| UsersPage.UserListPage.ChangePage | app/super-admin/users/page.tsx:83-104 | The page already shown changes nothing; another page p fetches server page p and shows local page p of its matches. When the server returns at most 8 users and p ≥ 2, nothing is shown and at most one page is counted |
| UsersPage.UserListPage.RequestDelete | app/super-admin/users/page.tsx:151-155 | Selects the user, puts up the question and opens the dialog; only Sil is offered (for a non-empty id) |
| UsersPage.UserListPage.DeleteUser | app/super-admin/users/page.tsx:66-81 | Without a selection nothing happens. Otherwise there is one delete call, plus a refetch of the current page after a success, and the matching result message. A successful refetch stores the new list and reruns the filter effect: the page count is ceil(matches/8) and the current local page of the matches is shown. After a failure the lists stay. The selection is cleared after every attempt, only Tamam is offered afterwards, and the page stays |
| UsersPage.UserListPage.DeleteSelected | app/super-admin/users/page.tsx:69-80 | With a selection: the delete call, then the success path or the failure message; the selection is cleared and only Tamam is offered |
| UsersPage.UserListPage.Deleted | app/super-admin/users/page.tsx:71-73 | The success message, a refetch of the current page, and on a successful refetch the new list with the filters rerun on it |
| UsersPage.UserListPage.Cancel | app/super-admin/users/page.tsx:177-185 | İptal closes the dialog and clears its text, so Sil is no longer offered |
| UsersPage.UserListPage.ConfirmDelete | app/super-admin/users/page.tsx:186-196 | Sil deletes the selected user, reports the result, clears the selection and leaves only Tamam. After a success and a successful refetch, the shown users are the current page of the new list's matches |
| UsersPage.UserListPage.Acknowledge | app/super-admin/users/page.tsx:197-207 | Tamam closes the dialog and clears its text |
| AdminJobPostsPage.MatchingJobs | app/admin/job-posts/page.tsx:64-76 | The posts kept are an order-preserving subsequence. They are exactly those with the selected applicationStatus whose title or companyName contains the term case-insensitively |
| AdminJobPostsPage.JobListPage.constructor | app/admin/job-posts/page.tsx:19-28 | The initial state: empty lists, page 1 of 0 pages, loading, dialog closed, no selection |
| AdminJobPostsPage.JobListPage.CheckAccess | app/admin/job-posts/page.tsx:34-44 | No token goes to /admin/login and a role other than Admin goes to "/". The page renders exactly when neither redirect happens |
| AdminJobPostsPage.JobListPage.FetchJobs | app/admin/job-posts/page.tsx:46-57 | One call for server page `page` of 8. A success stores the list and page count, a failure keeps them, and loading ends |
| AdminJobPostsPage.JobListPage.ApplyFilters | app/admin/job-posts/page.tsx:63-80 | The page count is ceil(matches/8), and the shown posts are page currentPage of the matches, all of them fetched posts |
| AdminJobPostsPage.JobListPage.ResetPage | app/admin/job-posts/page.tsx:59-61 | The reset effect (lines 82-84) sets page 1; only a change of page runs the fetch of server page 1 |
| AdminJobPostsPage.JobListPage.SetSearchTerm | app/admin/job-posts/page.tsx:49-84 | The term is stored and the page goes back to 1. When it was on another page, server page 1 is fetched and stored; on page 1 nothing is fetched. The page count is then ceil(matches/8) and the first 8 matches are shown |
| AdminJobPostsPage.JobListPage.SetSelectedStatus | app/admin/job-posts/page.tsx:49-84 | Choosing the status already selected changes nothing. Otherwise the status is stored and the page goes back to 1. When it was on another page, server page 1 is fetched and stored; on page 1 nothing is fetched. The page count is then ceil(matches/8) and the first 8 matches are shown |
| AdminJobPostsPage.JobListPage.ChangePage | app/admin/job-posts/page.tsx:49-79 | The page already shown changes nothing; another page p fetches server page p and shows local page p of its matches. For p ≥ 2 with a server page of at most 8 posts, nothing is shown and at most one page is counted |
| AdminJobPostsPage.JobListPage.HandleDelete | app/admin/job-posts/page.tsx:89-92 | Only records the id and opens the dialog; nothing is deleted |
| AdminJobPostsPage.JobListPage.Cancel | app/admin/job-posts/page.tsx:169-175 | İptal closes the dialog |
| AdminJobPostsPage.JobListPage.ConfirmDelete | app/admin/job-posts/page.tsx:94-117 | Without a selection nothing happens. Otherwise there is one delete call, a refetch after a success, and a success or failure toast. A successful refetch stores the new list and reruns the filters: the page count is ceil(matches/8) and the current local page of the matches is shown; otherwise the lists stay. The dialog closes, deleteLoading ends false and the selection is cleared either way |
| AdminJobPostsPage.JobListPage.DeleteSelected | app/admin/job-posts/page.tsx:97-116 | With a selection: the delete call, then the success path or the failure toast, then the finally block |
| AdminJobPostsPage.JobListPage.Deleted | app/admin/job-posts/page.tsx:100-104 | The success toast, a refetch of the current page, and on a successful refetch the new list with the filters rerun on it |
| AdminJobPostsPage.JobListPage.Settle | app/admin/job-posts/page.tsx:112-116 | The finally block: loading off, dialog closed, selection cleared |
| CompaniesPage.MatchingCompanies | app/admin/companies/page.tsx:88-106 | The companies shown are an order-preserving subsequence. They are exactly those with the selected approvalStatus whose companyName or email contains the term case-insensitively; with no filter, the whole page |
| CompaniesPage.StatusFromSelect | app/admin/companies/page.tsx:112-116 | "Tümü" maps to no status, and any other select value maps to the number it spells |
| CompaniesPage.SelectRoundTrip | app/admin/companies/page.tsx:112-116 | A status written as its numeral by the select reads back as that status |
| CompaniesPage.CompanyListPage.constructor | app/admin/companies/page.tsx:25-34 | The initial state: empty lists, page 1 of 0 pages, loading, no selection, dialog closed |
| CompaniesPage.CompanyListPage.DialogButtons | app/admin/companies/page.tsx:185-206 | Sil and Tamam are never offered together, and Sil is offered exactly when a company is selected and the question is up |
| CompaniesPage.CompanyListPage.CheckAccess | app/admin/companies/page.tsx:39-52 | No token goes to /admin/login and a role other than Admin goes to "/" |
| CompaniesPage.CompanyListPage.FetchCompanies | app/admin/companies/page.tsx:54-65 | One call for server page `page` of 8. A success stores the list and page count, a failure keeps them, and loading ends |
| CompaniesPage.CompanyListPage.ApplyFilters | app/admin/companies/page.tsx:88-106 | The shown companies are all the matches of the fetched page, with no local slicing |
| CompaniesPage.CompanyListPage.ResetPage | app/admin/companies/page.tsx:84-86 | The reset effect (lines 108-110) sets page 1; only a change of page runs the fetch of server page 1 |
| CompaniesPage.CompanyListPage.SetSearchTerm | app/admin/companies/page.tsx:84-110 | The term is stored and the page goes back to 1. When it was on another page, server page 1 is fetched and its list and page count stored; on page 1 nothing is fetched. The matches of the new term are shown |
| CompaniesPage.CompanyListPage.HandleStatusChange | app/admin/companies/page.tsx:84-116 | A value naming the status already selected changes nothing. Otherwise the selected status becomes the select value's status. The page goes back to 1, fetching server page 1 only when it was on another page, and the matches are shown |
| CompaniesPage.CompanyListPage.ChangePage | app/admin/companies/page.tsx:84-106 | The page already shown changes nothing; another page p fetches server page p and shows all of its matches |
| CompaniesPage.CompanyListPage.RequestDelete | app/admin/companies/page.tsx:150-154 | Selects the company and puts up the question; only Sil is offered (for a non-empty id) |
| CompaniesPage.CompanyListPage.DeleteCompany | app/admin/companies/page.tsx:67-82 | Without a selection nothing happens. Otherwise: one delete call, a refetch after a success, and the result message. A successful refetch stores the new list and page count and shows its matches; otherwise the lists stay. The selection is cleared after every attempt, and only Tamam is offered afterwards |
| CompaniesPage.CompanyListPage.DeleteSelected | app/admin/companies/page.tsx:70-81 | With a selection: the delete call, then the success path or the failure message; the selection is cleared |
| CompaniesPage.CompanyListPage.Deleted | app/admin/companies/page.tsx:72-74 | The success message, a refetch of the current page, and on success the new list's matches |
| CompaniesPage.CompanyListPage.Cancel | app/admin/companies/page.tsx:176-184 | İptal closes the dialog and clears its text, so Sil is no longer offered |
| CompaniesPage.CompanyListPage.ConfirmDelete | app/admin/companies/page.tsx:185-195 | Sil deletes the selected company, reports the result and clears the selection. After a success and a successful refetch, the new list's matches are shown |
| CompaniesPage.CompanyListPage.Acknowledge | app/admin/companies/page.tsx:196-206 | Tamam closes the dialog and clears its text |
| CompanyJobPostsPage.MatchingOwnJobs | app/company/job-post/page.tsx:94-107 | The posts shown are an order-preserving subsequence. They are exactly those with the selected applicationStatus whose title contains the term; companyName is never consulted |
| CompanyJobPostsPage.CompanyJobListPage.constructor | app/company/job-post/page.tsx:25-37 | The initial state: empty lists, page 1 of 0 pages, no selection, dialog closed |
| CompanyJobPostsPage.CompanyJobListPage.DialogButtons | app/company/job-post/page.tsx:178-199 | Sil and Tamam are never offered together, and Sil is offered exactly when a post is selected and the question is up |
| CompanyJobPostsPage.CompanyJobListPage.CheckAccess | app/company/job-post/page.tsx:43-56 | No token goes to /company/login and a role other than Company goes to "/" |
| CompanyJobPostsPage.CompanyJobListPage.FetchJobs | app/company/job-post/page.tsx:58-71 | One getByCompanyIdPaged call for page `page` of 8. A success stores the list and page count, a failure keeps them |
| CompanyJobPostsPage.CompanyJobListPage.ApplyFilters | app/company/job-post/page.tsx:94-107 | The shown posts are all the matches of the fetched page, with no local slicing |
| CompanyJobPostsPage.CompanyJobListPage.ResetPage | app/company/job-post/page.tsx:90-92 | The reset effect (lines 110-112) sets page 1; only a change of page runs the getByCompanyIdPaged call for page 1 |
| CompanyJobPostsPage.CompanyJobListPage.SetSearchTerm | app/company/job-post/page.tsx:90-112 | The term is stored and the page goes back to 1. When it was on another page, getByCompanyIdPaged is called for page 1 and its result stored; on page 1 nothing is fetched. The matches of the new term are shown |
| CompanyJobPostsPage.CompanyJobListPage.SetSelectedStatus | app/company/job-post/page.tsx:90-112 | Choosing the status already selected changes nothing. Otherwise the status is stored and the page goes back to 1, fetching page 1 only when it was on another page. The matches are shown |
| CompanyJobPostsPage.CompanyJobListPage.ChangePage | app/company/job-post/page.tsx:90-107 | The page already shown changes nothing; another page p makes one getByCompanyIdPaged call for page p, whose matches are then shown |
| CompanyJobPostsPage.CompanyJobListPage.RequestDelete | app/company/job-post/page.tsx:142-146 | Selects the post and puts up the question; only Sil is offered (for a non-empty id) |
| CompanyJobPostsPage.CompanyJobListPage.DeleteJob | app/company/job-post/page.tsx:73-88 | Without a selection nothing happens. Otherwise: one delete call, a getByCompanyIdPaged refetch after a success, and the result message. A successful refetch stores the new list and shows its matches; otherwise the lists stay. The selection is cleared after every attempt, and only Tamam is offered afterwards |
| CompanyJobPostsPage.CompanyJobListPage.DeleteSelected | app/company/job-post/page.tsx:76-87 | With a selection: the delete call, then the success path or the failure message; the selection is cleared |
| CompanyJobPostsPage.CompanyJobListPage.Deleted | app/company/job-post/page.tsx:78-80 | The success message, a refetch of the current page, and on success the new list's matches |
| CompanyJobPostsPage.CompanyJobListPage.Cancel | app/company/job-post/page.tsx:169-177 | İptal closes the dialog and clears its text |
| CompanyJobPostsPage.CompanyJobListPage.ConfirmDelete | app/company/job-post/page.tsx:178-188 | Sil deletes the selected post, reports the result and clears the selection. After a success and a successful refetch, the new list's matches are shown |
| CompanyJobPostsPage.CompanyJobListPage.Acknowledge | app/company/job-post/page.tsx:189-199 | Tamam closes the dialog and clears its text |
| AdminsPage.MatchingAdmins | app/super-admin/admin/page.tsx:88-100 | The admins shown are an order-preserving subsequence. They are exactly those whose fullName or email contains the term case-insensitively, and all of them for an empty term |
| AdminsPage.AdminListPage.constructor | app/super-admin/admin/page.tsx:25-34 | The initial state: empty lists, page 1 of 1, no selection, dialog closed |
| AdminsPage.AdminListPage.CheckAccess | app/super-admin/admin/page.tsx:39-51 | No token goes to /admin/login and a role other than SuperAdmin goes to "/" |
| AdminsPage.AdminListPage.FetchAdmins | app/super-admin/admin/page.tsx:53-64 | One call for server page `page`. A success stores the list and page count, a failure keeps them, and loading ends |
| AdminsPage.AdminListPage.ApplyFilters | app/super-admin/admin/page.tsx:88-100 | The shown admins are the matches of the fetched page |
| AdminsPage.AdminListPage.SetSearchTerm | app/super-admin/admin/page.tsx:88-100 | A new term shows its matches; this page has no page reset |
| AdminsPage.AdminListPage.ChangePage | app/super-admin/admin/page.tsx:84-100 | The page already shown changes nothing; another page p fetches server page p and shows its matches |
| AdminsPage.AdminListPage.RequestDelete | app/super-admin/admin/page.tsx:135-141 | Selects the admin, puts up the question and opens the dialog |
| AdminsPage.AdminListPage.DeleteAdmin | app/super-admin/admin/page.tsx:66-82 | Without a selection nothing happens. Otherwise: one delete call, a refetch after a success, and the result message. A successful refetch stores the new list and page count and shows its matches for the current term; otherwise the lists stay. The selection is cleared after every attempt |
| AdminsPage.AdminListPage.DeleteSelected | app/super-admin/admin/page.tsx:69-81 | With a selection: the delete call, then the success path or the failure message; the selection is cleared |
| AdminsPage.AdminListPage.Deleted | app/super-admin/admin/page.tsx:71-74 | The success message, a refetch of the current page, and on success the new list's matches |
| AdminsPage.AdminListPage.Cancel | app/super-admin/admin/page.tsx:161-169 | İptal closes the dialog and clears its text; the selection stays |
| AdminsPage.AdminListPage.Ok | app/super-admin/admin/page.tsx:171-179 | Tamam always runs deleteAdmin. With a selection it deletes that admin: a success shows the deleted message, refetches the current page and, when that succeeds, shows the new list's matches; a failure shows the failure message and keeps the lists; pressed again on the result it only closes the dialog, deleting nothing |
| NewsApi.GetPaged | app/api/newsApi.ts:85-105 | A non-ok response fails with "Haberler alınamadı.", and a fetch error propagates. A received body gives its data (or []) and ceil(totalItems/pageSize) pages, with a missing total read as 0 |
| NewsApi.Request | app/api/newsApi.ts:85 | The page and size requested default to 1 and 10 |
| NewsApi.PageCountBounds | app/api/newsApi.ts:103 | A missing total gives 0 pages, and a positive total at least one page |
| NewsPage.GuardPushes | app/admin/news/page.tsx:46-56 | With no token and no admin role the guard pushes /admin/login and then "/", since it does not return after the first push. An admin token pushes nothing, and there are never more than two pushes |
| NewsPage.NoTokenEndsHome | app/admin/news/page.tsx:46-56 | A missing token decodes to no role, so the visit ends on "/" |
| NewsPage.MatchingNews | app/admin/news/page.tsx:75-86 | The news shown are an order-preserving subsequence: exactly the items whose title or description contains the term, and all of them for an empty term |
| NewsPage.NewsListPage.constructor | app/admin/news/page.tsx:32-41 | The initial state: no news, page 1 of 1, loading, no selection, both dialogs closed |
| NewsPage.NewsListPage.CheckAccess | app/admin/news/page.tsx:46-56 | The page pushes exactly what the guard pushes |
| NewsPage.NewsListPage.FetchNews | app/admin/news/page.tsx:58-69 | One getPaged call for page `page` of 8. On success the list and page count are the API's normalised result; on failure they are kept |
| NewsPage.NewsListPage.ApplyFilters | app/admin/news/page.tsx:75-86 | The shown news are the matches of the fetched page |
| NewsPage.NewsListPage.SetSearchTerm | app/admin/news/page.tsx:75-86 | A new term shows its matches |
| NewsPage.NewsListPage.ChangePage | app/admin/news/page.tsx:71-73 | The pagination's setCurrentPage (line 216) with the page already shown changes nothing. Another page p makes one getPaged call for p of 8; on success the normalised list and page count are stored and their matches shown, on failure list, count and shown news are kept |
| NewsPage.NewsListPage.ConfirmDelete | app/admin/news/page.tsx:105-108 | Records the id and opens the confirmation dialog |
| NewsPage.NewsListPage.CancelDelete | app/admin/news/page.tsx:235 | The confirmation's cancel closes it |
| NewsPage.NewsListPage.HandleDelete | app/admin/news/page.tsx:88-103 | Without a selection nothing happens. A success closes the confirmation, opens the success dialog and refetches the current page; a successful refetch stores the normalised list and shows its matches. A failure keeps the dialogs and the list. deleting ends false and the selection is cleared after every attempt |
| NewsPage.NewsListPage.DeleteSelected | app/admin/news/page.tsx:91-102 | With a selection: the delete call, the success path after a success, then the finally block |
| NewsPage.NewsListPage.Deleted | app/admin/news/page.tsx:94-96 | The dialogs swap and the current page is refetched; a successful refetch stores its list and page count and shows the matches |
| NewsPage.NewsListPage.Settle | app/admin/news/page.tsx:99-102 | The finally block: deleting off and the selection cleared |
| NewsPage.NewsListPage.CloseSuccess | app/admin/news/page.tsx:255 | The success dialog's button closes it |
| EnumTypeConvert.Labels | utils/enumTypeConvert.ts:7-46 | A table's labels, one per entry |
| EnumTypeConvert.JobTypeLabelsWellFormed | utils/enumTypeConvert.ts:7-13 | The job-type table has distinct single-bit keys in ascending order, and distinct labels free of commas and of "Belirtilmedi" |
| EnumTypeConvert.EducationLevelLabelsWellFormed | utils/enumTypeConvert.ts:15-22 | The same for the education-level table |
| EnumTypeConvert.WeekDayLabelsWellFormed | utils/enumTypeConvert.ts:29-37 | The same for the week-day table |
| EnumTypeConvert.SelectedLabels | utils/enumTypeConvert.ts:51-54 | The labels selected by a mask form a sub-list of the table's labels in table order |
| EnumTypeConvert.SelectedOfZero | utils/enumTypeConvert.ts:53 | A zero mask selects no label |
| EnumTypeConvert.SelectedLabelsClean | utils/enumTypeConvert.ts:51-54 | No selected label holds a comma or reads "Belirtilmedi" |
| EnumTypeConvert.SelectedIff | utils/enumTypeConvert.ts:53-54 | An entry's label is selected exactly when `mask & key` is non-zero |
| EnumTypeConvert.SelectedMonotone | utils/enumTypeConvert.ts:62-65 | When mask a's bits are among mask b's, a's labels form a sub-list of b's |
| EnumTypeConvert.JoinIsNotNotSpecified | utils/enumTypeConvert.ts:56 | A ", "-join of comma-free labels none of which is "Belirtilmedi" is not "Belirtilmedi" |
| EnumTypeConvert.JoinIncludesParts | utils/enumTypeConvert.ts:56 | Every joined label appears in the joined text |
| EnumTypeConvert.FormatFlags | utils/enumTypeConvert.ts:48-57 | The result is "Belirtilmedi" exactly for a null mask or one selecting no label (zero, or bits matching no key). Otherwise it is the selected labels joined by ", " |
| EnumTypeConvert.FormatOffDays | utils/enumTypeConvert.ts:48-57 | The week-day rendering: "Belirtilmedi" exactly when nothing is selected, and every set day's label appears otherwise |
| EnumTypeConvert.FormatEducationLevels | utils/enumTypeConvert.ts:59-68 | The education-level rendering, with the same two properties |
| EnumTypeConvert.FormatWeekDays | utils/enumTypeConvert.ts:70-79 | formatWeekDaysEnum returns the same string as formatOffDaysEnum for every input |
| EnumTypeConvert.ListedLabelsAppear | utils/enumTypeConvert.ts:51-56 | Every label whose flag is set appears in the rendered text |
| JobPostAddPage.InitialJobPost | app/company/job-post-add/page.tsx:51-68 | The form has all sixteen keys and both checkbox masks start at 0 |
| JobPostAddPage.ToggleField | app/company/job-post-add/page.tsx:77-82 | A checkbox click XOR-toggles its field's mask and leaves every other field untouched |
| JobPostAddPage.ToggleFieldTwice | app/company/job-post-add/page.tsx:77-82 | Clicking the same box twice restores the form |
| JobPostAddPage.ClickFlipsOneBox | app/company/job-post-add/page.tsx:217-237 | A click flips its own box and no box of another flag or of the other group |
| JobPostAddPage.JobPostForm.constructor | app/company/job-post-add/page.tsx:43-68 | The initial state: the initial form, no date, dialog closed, nothing sent |
| JobPostAddPage.JobPostForm.HandleInputChange | app/company/job-post-add/page.tsx:70-75 | Exactly the named non-checkbox field takes the new value |
| JobPostAddPage.JobPostForm.HandleCheckboxChange | app/company/job-post-add/page.tsx:77-82 | The form becomes the toggled form, and stays well formed |
| JobPostAddPage.JobPostForm.SelectDate | app/company/job-post-add/page.tsx:357 | The picked date is stored |
| JobPostAddPage.JobPostForm.HandleSubmit | app/company/job-post-add/page.tsx:84-113 | With no date, or one not after now, the deadline message is shown and no call is made. Otherwise one create call carries the form with the deadline replaced by the date, the company's id and the fixed category. The dialog then shows the success or failure message and loading ends |
| JobPostAddPage.JobPostForm.CloseDialog | app/company/job-post-add/page.tsx:380-388 | Closing the dialog goes to /company/job-post exactly after the success message |
| JobPostAddPage.RefusedSubmitStays | app/company/job-post-add/page.tsx:87-93 | A refused submission followed by closing the dialog sends nothing and goes nowhere |
| ResumeAddPage.WithText | app/user/resume/add/page.tsx:140-230 | A text input sets its own field and no other, and leaves the mask alone |
| ResumeAddPage.ToggleLevel | app/user/resume/add/page.tsx:75-80 | A level click XOR-toggles requiredEducationLevel and changes no text field |
| ResumeAddPage.ToggleLevelTwice | app/user/resume/add/page.tsx:78-190 | Two clicks on a level restore the form; a click flips its own box's checked test and no other level's |
| ResumeAddPage.FailureText | app/user/resume/add/page.tsx:67-69 | The failure dialog shows the error's message when it is non-empty and the fixed fallback otherwise |
| ResumeAddPage.ResumeAdd.constructor | app/user/resume/add/page.tsx:18-30 | The initial state: an empty form whose education mask is None (0) |
| ResumeAddPage.ResumeAdd.CheckAccess | app/user/resume/add/page.tsx:33-44 | No token goes to /user/login and a role other than JobSeeker goes to "/" |
| ResumeAddPage.ResumeAdd.EditText | app/user/resume/add/page.tsx:140-230 | The form becomes the form with that text field set |
| ResumeAddPage.ResumeAdd.HandleEducationLevelChange | app/user/resume/add/page.tsx:75-80 | The form becomes the form with that level toggled |
| ResumeAddPage.ResumeAdd.HandleFormSubmit | app/user/resume/add/page.tsx:46-73 | One create call carrying exactly the eight form fields. The dialog opens with the success text, or with the failure text of the error, and loading ends |
| ResumeAddPage.ResumeAdd.Acknowledge | app/user/resume/add/page.tsx:235 | The dialog's button always goes to /user/profile |
| JobPostsPage.GetConcat | app/job-posts/page.tsx:75-80 | A key looked up in a concatenated query is found in the first part first |
| JobPostsPage.ParseList | app/job-posts/page.tsx:100 | `split(",").map(Number)`: one number per comma-separated piece |
| JobPostsPage.ListString | app/job-posts/page.tsx:116 | Joining a non-empty list gives a non-empty string |
| JobPostsPage.NumeralHasNoComma | app/job-posts/page.tsx:116 | A number's `toString()` holds no comma |
| JobPostsPage.ListRoundTrip | app/job-posts/page.tsx:100-118 | Writing a non-empty selection with `join(",")` and reading it back with `split(",").map(Number)` gives the same list |
| JobPostsPage.Bits | app/job-posts/page.tsx:86 | The 32-bit patterns of a list: one per number, with the same members |
| JobPostsPage.MaskIgnoresOrder | app/job-posts/page.tsx:86-92 | Two comma lists with the same numbers give the same mask, whatever their order and repetition |
| JobPostsPage.MaskChecks | app/job-posts/page.tsx:86-92 | A single-bit flag is set in the mask exactly when some listed number sets it |
| JobPostsPage.StateFromParams | app/job-posts/page.tsx:98-105 | A missing "search" gives an empty term, and a district is never "". The disabled box is on exactly for "true", and a missing list gives [] |
| JobPostsPage.FilterFromParams | app/job-posts/page.tsx:82-96 | Six filter entries. isDisabledFriendly is true or undefined, never false. A missing or empty jobTypes or educationLevels gives undefined, not 0 |
| JobPostsPage.FilterAgreesWithState | app/job-posts/page.tsx:82-105 | The filter sent is the state shown: title = search or undefined, districts = [district] or undefined, each mask the OR of the listed numbers, experience and disabled alike |
| JobPostsPage.GetSetIf | app/job-posts/page.tsx:113-121 | A conditional `set` holds its key's value exactly when its condition holds |
| JobPostsPage.GetSixWrites | app/job-posts/page.tsx:113-121 | After the six conditional writes each key reads back its own write, and any other key reads nothing |
| JobPostsPage.ParamsWritten | app/job-posts/page.tsx:110-124 | A parameter is written only when its state is non-empty or defined, "disabled" only when true, and experience 0 still is |
| JobPostsPage.StateRoundTrip | app/job-posts/page.tsx:98-124 | Writing the form state into the query and reading it back gives the same state |
| JobPostsPage.WithKey | app/job-posts/page.tsx:187-192 | Checking a box appends its key after the existing entries |
| JobPostsPage.WithoutKey | app/job-posts/page.tsx:194-198 | Unchecking removes every occurrence of the key and keeps every other entry, in order |
| JobPostsPage.CheckThenUncheck | app/job-posts/page.tsx:187-198 | Checking then unchecking leaves no trace of the key and keeps every other entry, and restores a list that did not hold the key |
| JobPostsPage.ListingPage.constructor | app/job-posts/page.tsx:36-52 | The initial state: cleared filters, page 1 of 1, no jobs, loading |
| JobPostsPage.ListingPage.FetchJobs | app/job-posts/page.tsx:58-71 | One filter call. A success stores the jobs, with a zero page count shown as 1 and a zero item count replaced by the list's length. A failure keeps everything |
| JobPostsPage.ListingPage.ShowFilters | app/job-posts/page.tsx:98-105 | The six filter fields show exactly the given state afterwards |
| JobPostsPage.ListingPage.OnSearchParams | app/job-posts/page.tsx:74-108 | The form shows what the query says, and the filter the query describes is fetched. On success the posts are the reply's, the page count is the reply's or 1 when it is 0, and the item count the reply's or the number of posts when it is 0; on failure all three stay. Loading ends |
| JobPostsPage.ListingPage.UpdateURLParams | app/job-posts/page.tsx:110-124 | Pushes "?" followed by the query written from the form state |
| JobPostsPage.ListingPage.ResetFilters | app/job-posts/page.tsx:130-139 | Clears every filter, goes to page 1 and pushes "/" |
| JobPostsPage.ListingPage.SetJobTypeChecked | app/job-posts/page.tsx:185-200 | The list gains or loses the key as the box is checked or unchecked, and the box then reads as set |
| JobPostsPage.ListingPage.SetEducationLevelChecked | app/job-posts/page.tsx:233-250 | The same for the education-level boxes |
| JobPostsPage.ListingPage.SetExperience | app/job-posts/page.tsx:212 | The experience becomes `Number` of the chosen key |
| JobPostsPage.ListingPage.SetCurrentPage | app/job-posts/page.tsx:336 | The pagination only sets the page |
| JobPostsPage.FilterCycle | app/job-posts/page.tsx:82-124 | After "Filtrele" and the URL effect, the form state survives the trip through the query. The page fetches exactly its title, its disabled flag and the OR of its job types (undefined when none) |
| JobSearchHero.HeroParams | components/JobSearchHero.tsx:22-29 | "search" is written exactly when the title is non-empty, "district" exactly when the district is, and search comes first |
| JobSearchHero.HeroQuery | components/JobSearchHero.tsx:25-26 | The query holds the title under "search" and the district under "district" when non-empty, and nothing else |
| JobSearchHero.HeroFeedsListing | components/JobSearchHero.tsx:22-29 | The listing page opened from the hero shows the title as its term and the district as its district, and fetches exactly those |
| JobSearchHero.Hero.constructor | components/JobSearchHero.tsx:18-19 | Title and district start empty |
| JobSearchHero.Hero.SetTitle | components/JobSearchHero.tsx:67 | The title input sets the title |
| JobSearchHero.Hero.SetDistrict | components/JobSearchHero.tsx:47 | The district select sets the district |
| JobSearchHero.Hero.HandleSearch | components/JobSearchHero.tsx:22-29 | Pushes /job-posts with the query built from the title and district |
| JobSearchHero.Hero.PickSuggestion | components/JobSearchHero.tsx:82-92 | A suggestion click replaces the title with that non-empty text and leaves the district unchanged |
| JobPostApi.OrZero | app/api/jobPostApi.ts:39-40 | `x \|\| 0`: a missing value is 0 and a non-zero value stays |
| JobPostApi.Normalise | app/api/jobPostApi.ts:37-42 | Missing data becomes [], missing totals 0, and a missing or empty errorMessage null |
| JobPostApi.NormaliseEmbed | app/api/jobPostApi.ts:37-42 | Normalising a complete payload changes nothing, and normalising twice is normalising once |
| JobPostApi.PagedRequest | app/api/jobPostApi.ts:22-49 | A missing page number is 1 and a missing page size is the call's default |
| JobPostApi.GetPaged | app/api/jobPostApi.ts:22-76 | A received body gives its normalised form; any failure gives the one fixed message, discarding the server text |
| JobPostApi.GetLatest | app/api/jobPostApi.ts:171-184 | A received list is returned as it is. A non-ok response fails with its own message, and a fetch error propagates |
| JobPostApi.CleanValue | app/api/jobPostApi.ts:143-147 | Booleans stay booleans; numbers and arrays become strings |
| JobPostApi.Cleaned | app/api/jobPostApi.ts:138-149 | The surviving keys are a subsequence of the input keys, in input order. Every defined entry survives with its cleaned value, falsy ones included, and every survivor comes from a defined entry |
| JobPostApi.CleanFilter | app/api/jobPostApi.ts:140-149 | The `forEach` loop builds exactly the cleaned record |
| JobPostApi.QueryOf | app/api/jobPostApi.ts:151 | The query has the cleaned record's keys in the same order |
| JobPostApi.FilterQuery | app/api/jobPostApi.ts:138-151 | The query's keys are a subsequence of the filter's keys |
| JobPostApi.FilterResult | app/api/jobPostApi.ts:160-169 | The listing is returned exactly when the response was received; every failure gives the one fixed message |
| JobListings.CategoryNames | components/JobListings.tsx:27-31 | The category of every job, in job order |
| JobListings.SumMatchesTotal | components/JobListings.tsx:36-39 | The array built from the accumulator sums to the accumulator's total |
| JobListings.TotalBump | components/JobListings.tsx:31 | `acc[name]++` on a listed name raises the total by one |
| JobListings.TotalUntouched | components/JobListings.tsx:28-30 | Setting an unlisted name's count leaves the total of the listed names alone |
| JobListings.TallyStep | components/JobListings.tsx:28-32 | One reduce step keeps the tally invariant: names distinct and exactly the names seen, each count the number of occurrences seen, and the total the number of jobs seen |
| JobListings.Record | components/JobListings.tsx:28-32 | The reduce callback for one category keeps the tally invariant, and appends the name to the keys exactly when it was not a key yet |
| JobListings.OrderStep | components/JobListings.tsx:29-30 | Keys kept in first-seen order stay in first-seen order after one more name |
| JobListings.FirstSeenNames | components/JobListings.tsx:27-36 | The first-seen list holds every name met, each once |
| JobListings.FirstSeenSnoc | components/JobListings.tsx:29-30 | One more name is either already in the first-seen list or joins its end |
| JobListings.FirstSeenGrows | components/JobListings.tsx:27-36 | The names met in a prefix of the jobs head the list, in the same order: a name met before another is listed before it |
| JobListings.BumpKeeps | components/JobListings.tsx:31 | Counting one more occurrence of an already listed name keeps the tally invariant |
| JobListings.TotalAtLeastLength | components/JobListings.tsx:29-32 | A tally with every count at least 1 totals at least the number of names |
| JobListings.CountCategories | components/JobListings.tsx:27-39 | Each distinct category appears once, in the order it is first met among the jobs. Each count equals the number of jobs in that category and is at least 1. Every job's category is listed, and nothing else is. There are no more categories than jobs, and the counts sum to the number of jobs |
| JobListings.Pair | components/JobListings.tsx:36-39 | The `map` over the keys: one entry per key, holding the key and its count |
| JobListings.HistogramOfTally | components/JobListings.tsx:27-39 | A finished tally whose keys are in first-seen order, paired with its counts, is the histogram |
| JobListings.CategoriesInOrder | components/JobListings.tsx:35-39 | The entries follow the keys' first-seen order |
| JobListings.TallyCategories | components/JobListings.tsx:36-39 | The final tally turned into an array has all the properties above |
| JobListings.LatestPanel.constructor | components/JobListings.tsx:13-15 | The initial state: no jobs, no categories, loading |
| JobListings.LatestPanel.FetchData | components/JobListings.tsx:19-47 | Asks for the 4 latest posts. On success it shows them with their histogram, with the properties above; on failure it keeps what it had. Loading ends |
| DatePicker.NextView | components/custom/DatePicker.tsx:78-80 | A header click always changes the view, and leads to the day view exactly from the year view |
| DatePicker.ViewCycle | components/custom/DatePicker.tsx:78-80 | Three header clicks cycle day → month → year → day |
| DatePicker.FullYear | components/custom/DatePicker.tsx:19-20 | `new Date` reads years 0..99 as 1900..1999 and every other year as itself |
| DatePicker.DaysInMonth | components/custom/DatePicker.tsx:19-20 | A month has 28 to 31 days. February has 29 exactly in a Gregorian leap year, and another month has 30 exactly when it is April, June, September or November |
| DatePicker.YearLength | components/custom/DatePicker.tsx:19-20 | The twelve months add up to 366 days in a leap year and 365 otherwise |
| DatePicker.DaysOffered | components/custom/DatePicker.tsx:104-105 | The day buttons are 1 up to the number of days in the month |
| DatePicker.DaysOfferedExactly | components/custom/DatePicker.tsx:104-105 | A day is offered exactly when it lies in 1..daysInMonth, and no day is offered twice |
| DatePicker.YearsOffered | components/custom/DatePicker.tsx:134-138 | The year buttons are the ten years from the range start |
| DatePicker.DecadeStart | components/custom/DatePicker.tsx:15-17 | The initial range start is the multiple of 10 with start ≤ year < start+10 |
| DatePicker.OpeningYearOffered | components/custom/DatePicker.tsx:15-17 | The year a picker opens on is among its first year buttons |
| DatePicker.PrevRange | components/custom/DatePicker.tsx:39-48 | The left arrow moves the range start back 10 in year view and the year back 1 in month view. In day view it moves one month back, keeping the month in 0..11. The view never changes |
| DatePicker.NextRange | components/custom/DatePicker.tsx:50-59 | The right arrow moves the range start on 10 in year view and the year on 1 in month view. In day view it moves one month on, keeping the month in 0..11 |
| DatePicker.MonthIndexInjective | components/custom/DatePicker.tsx:45-57 | A month count from year 0 determines the month and the year |
| DatePicker.PrevNextInverse | components/custom/DatePicker.tsx:39-59 | In every view, back then on (or on then back) restores month, year and range start |
| DatePicker.YearEdges | components/custom/DatePicker.tsx:45-57 | Back from January goes to December of the year before; on from December goes to January of the year after |
| DatePicker.Picker.constructor | components/custom/DatePicker.tsx:11-17 | Opens in day view on today's month and year, with the decade holding today's year |
| DatePicker.Picker.DayClick | components/custom/DatePicker.tsx:22-27 | Selects the day of the shown month on the year as `new Date` reads it, reports that date exactly once, and stays in day view |
| DatePicker.Picker.MonthClick | components/custom/DatePicker.tsx:29-32 | Shows that month's days |
| DatePicker.Picker.YearClick | components/custom/DatePicker.tsx:34-37 | Shows that year's months |
| DatePicker.Picker.HandlePrevRange | components/custom/DatePicker.tsx:39-48 | The picker moves as PrevRange says and the month stays in 0..11 |
| DatePicker.Picker.HandleNextRange | components/custom/DatePicker.tsx:50-59 | The picker moves as NextRange says and the month stays in 0..11 |
| DatePicker.Picker.HeaderClick | components/custom/DatePicker.tsx:78-80 | The view advances one step in the cycle |
| StatusActions.OfferedActions | components/custom/SuperAdminComponents/StatusActions.tsx:53-99 | Approve and reject are always offered, and pending exactly when the item is not pending; no action is offered twice |
| StatusActions.Title | components/custom/SuperAdminComponents/StatusActions.tsx:106-112 | The title for approve, for reject, and the "beklemeye almak" title for anything else, a missing action included |
| StatusActions.ConfirmLabel | components/custom/SuperAdminComponents/StatusActions.tsx:128-132 | "Onayla", "Reddet", or "Beklemeye Al" for anything else, a missing action included |
| StatusActions.TitleMatchesLabel | components/custom/SuperAdminComponents/StatusActions.tsx:106-132 | Two actions share a label exactly when they share a title, and a missing action reads like pending |
| StatusActions.ActionDialog.constructor | components/custom/SuperAdminComponents/StatusActions.tsx:28-31 | Starts closed, with no action and nothing reported |
| StatusActions.ActionDialog.Open | components/custom/SuperAdminComponents/StatusActions.tsx:33-36 | Records the offered action and opens the dialog |
| StatusActions.ActionDialog.Confirm | components/custom/SuperAdminComponents/StatusActions.tsx:38-44 | Reports the recorded action exactly once (nothing without one), then closes and forgets it |
| StatusActions.ActionDialog.Cancel | components/custom/SuperAdminComponents/StatusActions.tsx:46-49 | Closes and forgets the action without reporting |
| StatusActions.OpenThenConfirm | components/custom/SuperAdminComponents/StatusActions.tsx:33-44 | Opening on an offered action and confirming reports exactly that action |
| StatusActions.OpenThenCancel | components/custom/SuperAdminComponents/StatusActions.tsx:33-49 | Opening and cancelling reports nothing |
| UserProfilePage.OrEmpty | app/user/profile/page.tsx:65-87 | A list fetch gives its payload, or [] after a failure |
| UserProfilePage.WithoutResume | app/user/profile/page.tsx:105-107 | Removes exactly the resumes with that id and keeps the rest in order |
| UserProfilePage.WithoutCertificate | app/user/profile/page.tsx:110-112 | Removes exactly the certificates with that id and keeps the rest in order |
| UserProfilePage.RemovalIdempotent | app/user/profile/page.tsx:105-107 | Removing an id twice is removing it once, and a list without that id is left alone |
| UserProfilePage.ProfilePage.constructor | app/user/profile/page.tsx:42-49 | The initial state: empty lists, loading, no delete target |
| UserProfilePage.ProfilePage.FetchData | app/user/profile/page.tsx:51-93 | Without a token or the JobSeeker role it goes to "/" and fetches nothing. If the user fetch fails, nothing else is fetched. Otherwise each list takes its own payload, or [] when its own fetch fails. Loading ends |
| UserProfilePage.ProfilePage.SelectForDelete | app/user/profile/page.tsx:167-218 | Records the row to delete |
| UserProfilePage.ProfilePage.Dismiss | app/user/profile/page.tsx:284-295 | Forgets the delete target |
| UserProfilePage.ProfilePage.HandleDelete | app/user/profile/page.tsx:99-119 | Without a target nothing happens. A resume delete removes that resume on success, leaving certificates untouched; a certificate delete does the same the other way round. A failure or an unknown kind changes neither list. The target is cleared after every attempt |
| AdminLogin.MessageFor | components/AdminLogin.tsx:48-70 | A non-Error throw or an empty message gives the generic text, and unparseable or null JSON gives "Email veya parola hatalıdır.". The message stays null exactly when `errors` names neither field. Otherwise it is one of the four texts |
| AdminLogin.FieldErrorPrecedence | components/AdminLogin.tsx:53-62 | errors.Password wins over errors.Email. Without `errors`, an errorMessage gives the wrong-credentials text and other JSON the generic text |
| AdminLogin.UnknownRoleReadsAsWrongCredentials | components/AdminLogin.tsx:44-66 | The unknown-role throw is reported as wrong credentials, since its text is not JSON |
| AdminLogin.LoginThrow | app/api/adminApi.ts:148-151 | A failed login response throws an Error whose non-empty text is not JSON |
| AdminLogin.LoginFailureReadsAsWrongCredentials | app/api/adminApi.ts:148-151 | Whatever the server's error text, a failed login through adminAPI is reported as wrong credentials |
| AdminLogin.Destination | components/AdminLogin.tsx:40-46 | SuperAdmin goes to /super-admin and Admin to /admin; no other role has a destination |
| AdminLogin.AdminLoginForm.constructor | components/AdminLogin.tsx:22 | Starts with no message, no token and no navigation |
| AdminLogin.AdminLoginForm.OnSubmit | components/AdminLogin.tsx:33-71 | One login call. A reply without data stores and shows nothing. A token is stored before routing: a known role navigates, and any other role shows wrong credentials with the token left stored. A throw is worded by MessageFor and stores nothing |
| PasswordChange.WithField | app/user/settings/page.tsx:274-310 | A password input sets its own field and leaves the other two |
| PasswordChange.FailureMessage | app/user/settings/page.tsx:137-142 | "Mevcut parola yanlış." exactly when the server's text contains "Hatalı parola", and the generic failure text exactly otherwise |
| PasswordChange.FailureIsNotMismatch | app/user/settings/page.tsx:118-142 | A failure never reads like the mismatch message and is never empty |
| PasswordChange.MarkerReadsAsWrongCurrent | app/user/settings/page.tsx:137-142 | Any text containing "Hatalı parola" reads as a wrong current password |
| UserSettingsPage.UserSettings.constructor | app/user/settings/page.tsx:36-59 | The initial state: loading, empty details and password fields, dialog closed |
| UserSettingsPage.UserSettings.Load | app/user/settings/page.tsx:61-92 | Without a user id it goes to /user/login and fetches nothing. Otherwise it fetches the user, copies the details or toasts on failure, and loading ends |
| UserSettingsPage.UserSettings.EditPassword | app/user/settings/page.tsx:274-310 | The password form takes the typed field |
| UserSettingsPage.UserSettings.HandleUpdateInfo | app/user/settings/page.tsx:94-112 | One update call. The success dialog opens only on success, a failure toasts, and updateLoading ends false |
| UserSettingsPage.UserSettings.HandlePasswordChange | app/user/settings/page.tsx:114-146 | A mismatch gives the mismatch error with no call and no loading flag. Otherwise there is one call and passwordLoading ends false. A success clears the three fields and opens the dialog; a failure keeps the fields and the dialog closed, worded by FailureMessage |
| UserSettingsPage.UserSettings.CloseDialog | app/user/settings/page.tsx:321 | Closes the success dialog |
| CompanySettingsPage.CompanySettings.constructor | app/company/settings/page.tsx:33-61 | The initial state: loading, empty details and password fields, dialog closed |
| CompanySettingsPage.CompanySettings.Load | app/company/settings/page.tsx:63-99 | Without a company id it goes to /company/login and fetches nothing. Otherwise it fetches, copies the details or toasts, and loading ends |
| CompanySettingsPage.CompanySettings.EditPassword | app/company/settings/page.tsx:385-418 | The password form takes the typed field |
| CompanySettingsPage.CompanySettings.HandleUpdateInfo | app/company/settings/page.tsx:101-119 | One update call. The success dialog opens only on success, and updateLoading ends false |
| CompanySettingsPage.CompanySettings.HandlePasswordChange | app/company/settings/page.tsx:121-152 | Same as on the user page: mismatch refused without a call, success clears and opens the dialog, failure worded by FailureMessage, passwordLoading reset |
| CompanySettingsPage.CompanySettings.CloseDialog | app/company/settings/page.tsx:431 | Closes the success dialog |
| AdminSettingsPage.AdminSettings.constructor | app/admin/settings/page.tsx:22-42 | The initial state: loading, empty details and password fields, dialog closed |
| AdminSettingsPage.AdminSettings.Load | app/admin/settings/page.tsx:44-78 | Without an admin id it goes to /admin/login, and with a role other than Admin to "/"; neither fetches. Otherwise it fetches, copies or toasts, and loading ends |
| AdminSettingsPage.AdminSettings.EditPassword | app/admin/settings/page.tsx:242-279 | The password form takes the typed field |
| AdminSettingsPage.AdminSettings.HandleUpdateInfo | app/admin/settings/page.tsx:80-98 | One update call. The success dialog opens only on success, and updateLoading ends false |
| AdminSettingsPage.AdminSettings.HandlePasswordChange | app/admin/settings/page.tsx:100-133 | A mismatch is refused without a call. A success clears the fields and opens the dialog. Every failure, whatever its text, gives "Mevcut parola yanlış.". passwordLoading is reset |
| AdminSettingsPage.AdminSettings.CloseDialog | app/admin/settings/page.tsx:301 | Closes the success dialog |
| UserRegister.BirthDateOf | components/UserRegister.tsx:73 | birthDate is "" exactly when no date was picked, and otherwise the picked instant |
| UserRegister.PayloadOf | components/UserRegister.tsx:68-76 | The seven payload fields are the form's fields and the birth date |
| UserRegister.ConfirmationNotSent | components/UserRegister.tsx:68-76 | Two forms differing only in the confirmation give the same payload |
| UserRegister.RegisterForm.constructor | components/UserRegister.tsx:29-40 | The initial state: every field empty, no date, no message |
| UserRegister.RegisterForm.HandleInputChange | components/UserRegister.tsx:42-48 | The named input takes the value and no other field changes |
| UserRegister.RegisterForm.HandleDistrictChange | components/UserRegister.tsx:50-55 | The district takes the chosen value |
| UserRegister.RegisterForm.SelectDate | components/UserRegister.tsx:170 | The picked date is stored |
| UserRegister.RegisterForm.HandleSubmit | components/UserRegister.tsx:57-83 | Different passwords give "Parolalar eşleşmiyor!" with no call. Otherwise the message is cleared and one create call carries the payload. A success goes to /user/login; a failure goes nowhere and shows nothing |

## Left out

- Backend calls (`fetch` and the API wrappers other than the paged, filter and latest helpers of the job-post API and getPaged of the news API) are not modelled. Their outcome is a handler parameter: success, failure with a message, or the payload.
- Token decoding (getRoleFromToken, getIdFromToken) is not modelled. The role and id are handler inputs, and null for a missing token.
- `Date`, `Intl` and `toISOString` are not modelled. Dates are integers (instants); an ISO string in a payload is the instant it encodes.
- Unicode case folding is not modelled. `toLowerCase` folds ASCII letters only, so Turkish letters such as İ and Ş compare as written.
- `URLSearchParams` percent-encoding is not modelled. A query is the list of its key/value pairs, in insertion order.
- JavaScript number syntax beyond optionally negated decimal digits (exponents, hex, whitespace) is not modelled. Those strings are not produced by the pages' selects and checkboxes.
- `Object.keys` puts keys that look like array indices first, in numeric order. The model does not: the histogram is proved to list names in first-seen order (FirstSeen), which is what JavaScript does for every other key.
- JobListings.LatestPanel.FetchData: reads the result of getLatest as the list of posts. The component reads `.data` from it, which an array does not have, so as written `setJobs(undefined)` runs, the `reduce` on `undefined` throws into the catch, and the render's `jobs.map` (line 110) then throws too: the list would fail to render.
- The numeric values of WeekDay, EducationLevel and JobType are not part of this model. They are taken to be distinct single bits in declaration order, with None = 0.
- StatusActions: the application status is the three-valued Pending / Approved / Rejected. The list pages keep statuses as plain numbers.
- React scheduling, batching and effect ordering are not modelled. A handler runs to the end with the effects its state changes trigger (the page-1 fetch of the reset effect, the filter rerun after a refetch) before anything else happens; in the browser other events could interleave between them. As in React, choosing the page already shown or the status already selected changes nothing and runs no effect. The search setters are not guarded that way, because an input's onChange fires only when its text changes.
- Toast titles and styling are not modelled; only a toast's description is recorded.
- Render-only markup (tables, cards, badges, sidebars) is not modelled.
- Zod validation in the admin login form is a precondition; `OnSubmit` starts after validation has passed.
- AdminLogin.MessageFor: what the thrown text parses to is an input. The only thrower the form calls, adminAPI.login (app/api/adminApi.ts:148-151), always throws "Giriş başarısız: " plus the server's text, which never parses, so as written every failed login shows wrong credentials (LoginFailureReadsAsWrongCredentials); the field and generic messages are reachable only from other throws.
- AdminLogin.AdminLoginForm.OnSubmit: the reply's `data` is a string, with "" standing for a missing token; `JSON.parse` is represented by its classified result.
- The settings pages' editable detail fields and their inline onChange handlers are not modelled. HandleUpdateInfo sends whatever details the page holds.
- Key order inside the job-post payload is not modelled (the payload is a map).
- JobPostsPage.ListingPage.SetCurrentPage: the listing page's pagination only sets the page number and does not refetch, as written; the fetched page therefore never changes with it.
- JobPostsPage.SignedOf (the signed reading of a 32-bit mask) has no contract of its own. It appears only inside FilterAgreesWithState.
