/**
 * app/api/jobPostApi.ts: normalising the paged job-post payload, rewrapping
 * every failure of a paged call in one fixed message, and cleaning a filter
 * object into the query parameters of the filter call.
 */
module JobPostApi {
  import opened Common
  import opened Numerals
  import opened Text
  import opened Seqs

  datatype JobPost = JobPost(id: string, title: string, companyName: string, categoryName: string,
                             applicationStatus: int)

  /** The paged JSON as the backend sends it; any field may be missing or null. */
  datatype RawPaged = RawPaged(data: Option<seq<JobPost>>, totalItems: Option<int>,
                               totalPages: Option<int>, errorMessage: Option<string>)

  /** IPagedResult: the paged payload with every field filled in. */
  datatype PagedResult = PagedResult(data: seq<JobPost>, totalItems: int, totalPages: int,
                                     errorMessage: Option<string>)

  /** What `fetch` gave: a decoded body, a non-ok response with its text, or a thrown error. */
  datatype Response<+T> = Received(body: T) | NotOk(text: string) | Thrown(message: string)

  const PagedFailure := "Sayfalı iş ilanları alınırken bir hata oluştu."
  const FilterFailure := "İş ilanı filtreleme işlemi sırasında bir hata oluştu."
  const LatestFailure := "Son iş ilanları alınamadı."
  const LatestDefaultCount := 4

  /** `x || fallback` for a nullable number: null, undefined and 0 give the fallback. */
  function OrZero(x: Option<int>): (r: int)
    ensures x.Some? && x.value != 0 ==> r == x.value
    ensures x.None? ==> r == 0
  {
    if x.Some? then x.value else 0
  }

  /** The object getPaged and getByCompanyIdPaged return (lines 37-42, 66-71). */
  function Normalise(raw: RawPaged): (r: PagedResult)
    ensures raw.data.Some? ==> r.data == raw.data.value
    ensures raw.data.None? ==> r.data == []
    ensures r.totalItems == OrZero(raw.totalItems) && r.totalPages == OrZero(raw.totalPages)
    ensures r.errorMessage.Some? ==> r.errorMessage.value != ""
    ensures raw.errorMessage.Some? && raw.errorMessage.value != "" ==> r.errorMessage == raw.errorMessage
  {
    PagedResult(
      if raw.data.Some? then raw.data.value else [],
      OrZero(raw.totalItems),
      OrZero(raw.totalPages),
      if raw.errorMessage.Some? && raw.errorMessage.value != "" then raw.errorMessage else None)
  }

  /** A complete payload read back as raw JSON. */
  function Embed(p: PagedResult): RawPaged
  {
    RawPaged(Some(p.data), Some(p.totalItems), Some(p.totalPages), p.errorMessage)
  }

  /** Normalising a complete payload changes nothing, and normalising twice is normalising once. */
  lemma NormaliseEmbed(p: PagedResult)
    requires p.errorMessage != Some("")
    ensures Normalise(Embed(p)) == p
    ensures Normalise(Embed(Normalise(Embed(p)))) == Normalise(Embed(p))
  {
  }

  /** The page and size a paged call asks for: the defaults fill the missing arguments. */
  function PagedRequest(pageNumber: Option<int>, pageSize: Option<int>, defaultSize: int): (r: (int, int))
    ensures pageNumber.Some? ==> r.0 == pageNumber.value
    ensures pageNumber.None? ==> r.0 == 1
    ensures pageSize.Some? ==> r.1 == pageSize.value
    ensures pageSize.None? ==> r.1 == defaultSize
  {
    (if pageNumber.Some? then pageNumber.value else 1, if pageSize.Some? then pageSize.value else defaultSize)
  }

  /**
   * getPaged (lines 22-47) and getByCompanyIdPaged (lines 49-76): the
   * normalised payload, or the fixed message whatever went wrong.
   */
  function GetPaged(response: Response<RawPaged>): (r: Result<PagedResult>)
    ensures r.Ok? <==> response.Received?
    ensures r.Ok? ==> r.value == Normalise(response.body)
    ensures r.Err? ==> r.message == PagedFailure
  {
    match response
    case Received(body) => Ok(Normalise(body))
    case NotOk(_) => Err(PagedFailure)
    case Thrown(_) => Err(PagedFailure)
  }

  /** getLatest (lines 171-184): the list, or its own message for a non-ok response. */
  function GetLatest(response: Response<seq<JobPost>>): (r: Result<seq<JobPost>>)
    ensures response.Received? ==> r == Ok(response.body)
    ensures response.NotOk? ==> r == Err(LatestFailure)
    ensures response.Thrown? ==> r == Err(response.message)
  {
    match response
    case Received(body) => Ok(body)
    case NotOk(_) => Err(LatestFailure)
    case Thrown(m) => Err(m)
  }

  /** A value in an IJobPostFilter object. */
  datatype JsValue = Undefined | Null | JStr(s: string) | JNum(n: JsNum) | JBool(b: bool) | JList(items: seq<string>)

  /** A value in the cleaned record: a string, or a boolean kept as it is. */
  datatype Param = PStr(s: string) | PBool(b: bool)

  /** `value !== null && value !== undefined`. */
  predicate Defined(v: JsValue)
  {
    !(v.Undefined? || v.Null?)
  }

  /** Lines 143-147: arrays and numbers become their `toString()`, strings and booleans stay. */
  function CleanValue(v: JsValue): (p: Param)
    requires Defined(v)
    ensures p.PBool? <==> v.JBool?
  {
    match v
    case JStr(s) => PStr(s)
    case JBool(b) => PBool(b)
    case JNum(n) => PStr(JsNumToString(n))
    case JList(items) => PStr(Join(items, ","))
  }

  function KeysOf<V>(entries: seq<(string, V)>): (r: seq<string>)
    ensures |r| == |entries|
  {
    seq(|entries|, i requires 0 <= i < |entries| => entries[i].0)
  }

  /**
   * The cleaned record of lines 138-149: every defined entry, in key order,
   * with its cleaned value, and nothing else.
   */
  function Cleaned(entries: seq<(string, JsValue)>): (r: seq<(string, Param)>)
    ensures |r| <= |entries|
    ensures IsSubseq(KeysOf(r), KeysOf(entries))
    ensures forall i :: 0 <= i < |entries| && Defined(entries[i].1) ==>
      (entries[i].0, CleanValue(entries[i].1)) in r
    ensures forall j :: 0 <= j < |r| ==>
      exists i :: 0 <= i < |entries| && entries[i].0 == r[j].0 && Defined(entries[i].1) &&
        CleanValue(entries[i].1) == r[j].1
    decreases |entries|
  {
    if entries == [] then []
    else
      var init := entries[..|entries| - 1];
      var last := entries[|entries| - 1];
      var rest := Cleaned(init);
      CleanedFacts(entries, init, last, rest);
      var r := if Defined(last.1) then rest + [(last.0, CleanValue(last.1))] else rest;
      CleanedEntries(entries, init, last, rest, r);
      r
  }

  /** The entry-wise facts of Cleaned carry over from the first entries to all of them. */
  lemma CleanedEntries(entries: seq<(string, JsValue)>, init: seq<(string, JsValue)>, last: (string, JsValue),
                       rest: seq<(string, Param)>, r: seq<(string, Param)>)
    requires entries != [] && init == entries[..|entries| - 1] && last == entries[|entries| - 1]
    requires forall i :: 0 <= i < |init| && Defined(init[i].1) ==> (init[i].0, CleanValue(init[i].1)) in rest
    requires forall j :: 0 <= j < |rest| ==>
      exists i :: 0 <= i < |init| && init[i].0 == rest[j].0 && Defined(init[i].1) && CleanValue(init[i].1) == rest[j].1
    requires r == if Defined(last.1) then rest + [(last.0, CleanValue(last.1))] else rest
    ensures forall i :: 0 <= i < |entries| && Defined(entries[i].1) ==>
      (entries[i].0, CleanValue(entries[i].1)) in r
    ensures forall j :: 0 <= j < |r| ==>
      exists i :: 0 <= i < |entries| && entries[i].0 == r[j].0 && Defined(entries[i].1) &&
        CleanValue(entries[i].1) == r[j].1
  {
    forall i | 0 <= i < |entries| && Defined(entries[i].1)
      ensures (entries[i].0, CleanValue(entries[i].1)) in r
    {
      if i < |init| {
        assert entries[i] == init[i];
      }
    }
    forall j | 0 <= j < |r|
      ensures exists i :: 0 <= i < |entries| && entries[i].0 == r[j].0 && Defined(entries[i].1) &&
                CleanValue(entries[i].1) == r[j].1
    {
      if j < |rest| {
        assert r[j] == rest[j];
        var i :| 0 <= i < |init| && init[i].0 == rest[j].0 && Defined(init[i].1) && CleanValue(init[i].1) == rest[j].1;
        assert entries[i] == init[i];
      } else {
        assert entries[|entries| - 1] == last;
      }
    }
  }

  lemma CleanedFacts(entries: seq<(string, JsValue)>, init: seq<(string, JsValue)>, last: (string, JsValue),
                     rest: seq<(string, Param)>)
    requires entries != [] && init == entries[..|entries| - 1] && last == entries[|entries| - 1]
    requires IsSubseq(KeysOf(rest), KeysOf(init))
    ensures KeysOf(entries) == KeysOf(init) + [last.0]
    ensures Defined(last.1) ==> IsSubseq(KeysOf(rest + [(last.0, CleanValue(last.1))]), KeysOf(entries))
    ensures !Defined(last.1) ==> IsSubseq(KeysOf(rest), KeysOf(entries))
  {
    assert KeysOf(entries) == KeysOf(init) + [last.0];
    if Defined(last.1) {
      var p := (last.0, CleanValue(last.1));
      assert KeysOf(rest + [p]) == KeysOf(rest) + [last.0];
      SubseqAppendBoth(KeysOf(rest), KeysOf(init), last.0);
    } else {
      SubseqAppendRight(KeysOf(rest), KeysOf(init), last.0);
    }
  }

  lemma {:induction false} SubseqAppendBoth<T>(a: seq<T>, b: seq<T>, x: T)
    requires IsSubseq(a, b)
    ensures IsSubseq(a + [x], b + [x])
    decreases |b|
  {
    if b == [] {
      assert a == [];
      assert ([x] + [])[1..] == [];
    } else if a != [] && a[0] == b[0] && IsSubseq(a[1..], b[1..]) {
      SubseqAppendBoth(a[1..], b[1..], x);
      assert (a + [x])[1..] == a[1..] + [x];
      assert (b + [x])[1..] == b[1..] + [x];
    } else {
      SubseqAppendBoth(a, b[1..], x);
      assert (b + [x])[1..] == b[1..] + [x];
    }
  }

  lemma {:induction false} SubseqAppendRight<T>(a: seq<T>, b: seq<T>, x: T)
    requires IsSubseq(a, b)
    ensures IsSubseq(a, b + [x])
    decreases |b|
  {
    if b == [] {
      assert a == [];
    } else if a != [] && a[0] == b[0] && IsSubseq(a[1..], b[1..]) {
      SubseqAppendRight(a[1..], b[1..], x);
      assert (b + [x])[1..] == b[1..] + [x];
    } else {
      SubseqAppendRight(a, b[1..], x);
      assert (b + [x])[1..] == b[1..] + [x];
    }
  }

  /**
   * The `forEach` of lines 140-149 that fills the cleaned record, one key at
   * a time.
   */
  method CleanFilter(entries: seq<(string, JsValue)>) returns (cleaned: seq<(string, Param)>)
    ensures cleaned == Cleaned(entries)
  {
    cleaned := [];
    var i := 0;
    while i < |entries|
      invariant 0 <= i <= |entries|
      invariant cleaned == Cleaned(entries[..i])
    {
      var (key, value) := entries[i];
      assert entries[..i + 1][..i] == entries[..i];
      if Defined(value) {
        cleaned := cleaned + [(key, CleanValue(value))];
      }
      i := i + 1;
    }
    assert entries[..i] == entries;
  }

  /** `new URLSearchParams(cleaned)`: booleans are written "true" / "false". */
  function QueryOf(cleaned: seq<(string, Param)>): (r: seq<(string, string)>)
    ensures KeysOf(r) == KeysOf(cleaned)
  {
    seq(|cleaned|, i requires 0 <= i < |cleaned| =>
      (cleaned[i].0, match cleaned[i].1 case PStr(s) => s case PBool(b) => if b then "true" else "false"))
  }

  /** filter (lines 136-170): the query sent, and the listing or the fixed message. */
  function FilterQuery(entries: seq<(string, JsValue)>): (r: seq<(string, string)>)
    ensures IsSubseq(KeysOf(r), KeysOf(entries))
  {
    QueryOf(Cleaned(entries))
  }

  function FilterResult<T>(response: Response<T>): (r: Result<T>)
    ensures r.Ok? <==> response.Received?
    ensures r.Err? ==> r.message == FilterFailure
  {
    if response.Received? then Ok(response.body) else Err(FilterFailure)
  }
}
