/**
 * app/api/newsApi.ts, getPaged: one page of news, with the page count
 * computed on the client from the item count.
 */
module NewsApi {
  import opened Common
  import opened Paging
  import opened JobPostApi

  datatype News = News(id: string, title: string, description: string)

  /** The paged JSON; `data` and `totalItems` may be missing. */
  datatype RawNewsPage = RawNewsPage(data: Option<seq<News>>, totalItems: Option<int>)

  const FetchFailure := "Haberler alınamadı."
  const DefaultPageNumber := 1
  const DefaultPageSize := 10

  /**
   * getPaged (lines 85-105): a non-ok response throws the fixed message, an
   * error thrown by fetch itself propagates, and a payload gives its items
   * (or none) and `Math.ceil((totalItems || 0) / pageSize)` pages.
   */
  function GetPaged(pageSize: int, response: Response<RawNewsPage>): (r: Result<Paged<News>>)
    requires pageSize > 0
    ensures response.NotOk? ==> r == Err(FetchFailure)
    ensures response.Thrown? ==> r == Err(response.message)
    ensures response.Received? ==>
              r.Ok? &&
              r.value.data == (if response.body.data.Some? then response.body.data.value else []) &&
              pageSize * (r.value.totalPages - 1) < OrZero(response.body.totalItems) <= pageSize * r.value.totalPages
  {
    match response
    case NotOk(_) => Err(FetchFailure)
    case Thrown(m) => Err(m)
    case Received(body) =>
      Ok(Paged(if body.data.Some? then body.data.value else [], CeilDiv(OrZero(body.totalItems), pageSize)))
  }

  /** The page and size asked for: 1 and 10 unless given. */
  function Request(pageNumber: Option<int>, pageSize: Option<int>): (r: (int, int))
    ensures r == PagedRequest(pageNumber, pageSize, DefaultPageSize)
    ensures pageNumber.None? && pageSize.None? ==> r == (DefaultPageNumber, DefaultPageSize)
  {
    PagedRequest(pageNumber, pageSize, DefaultPageSize)
  }

  /** A missing or zero item count gives zero pages; a page holds at most pageSize of the counted items. */
  lemma PageCountBounds(pageSize: int, body: RawNewsPage)
    requires pageSize > 0
    ensures body.totalItems.None? ==> GetPaged(pageSize, Received(body)).value.totalPages == 0
    ensures OrZero(body.totalItems) > 0 ==> GetPaged(pageSize, Received(body)).value.totalPages >= 1
  {
  }
}
