/**
 * The filter effect shared by the admin list pages: keep the rows whose
 * status equals the selected one (when one is selected), then the rows one
 * of whose text fields contains the search term, ignoring case.
 */
module ListFilter {
  import opened Common
  import opened Text
  import opened Seqs

  /**
   * A backend call made by a list page: `getPaged`, the company's own
   * `getByCompanyIdPaged`, or `delete`.
   */
  datatype ListCall = GetPaged(page: int, size: int) | GetByCompanyPaged(page: int, size: int) | Delete(id: string)

  /** An empty term keeps every row; otherwise one of the fields must contain it. */
  predicate MatchesTerm(fields: seq<string>, term: string)
  {
    term == "" || exists k :: 0 <= k < |fields| && IncludesCI(fields[k], term)
  }

  lemma MatchesOneField(a: string, term: string)
    ensures MatchesTerm([a], term) <==> term == "" || IncludesCI(a, term)
  {
    if IncludesCI(a, term) {
      assert [a][0] == a;
    }
  }

  lemma MatchesTwoFields(a: string, b: string, term: string)
    ensures MatchesTerm([a, b], term) <==> term == "" || IncludesCI(a, term) || IncludesCI(b, term)
  {
    if IncludesCI(a, term) {
      assert [a, b][0] == a;
    }
    if IncludesCI(b, term) {
      assert [a, b][1] == b;
    }
  }

  /** `if (selectedStatus !== null) rows = rows.filter(r => r.status === selectedStatus)`. */
  function ByStatus<T(==)>(xs: seq<T>, status: Option<int>, statusOf: T -> int): (r: seq<T>)
    ensures IsSubseq(r, xs)
    ensures forall x :: x in xs ==> (x in r <==> status.None? || statusOf(x) == status.value)
    ensures status.None? ==> r == xs
  {
    if status.None? then
      SubseqReflexive(xs);
      xs
    else FilterSeq(xs, x => statusOf(x) == status.value)
  }

  /** `if (searchTerm) rows = rows.filter(r => <some field>.toLowerCase().includes(term))`. */
  function BySearch<T(==)>(xs: seq<T>, term: string, fields: T -> seq<string>): (r: seq<T>)
    ensures IsSubseq(r, xs)
    ensures forall x :: x in xs ==> (x in r <==> MatchesTerm(fields(x), term))
    ensures term == "" ==> r == xs
  {
    if term != "" then FilterSeq(xs, x => MatchesTerm(fields(x), term))
    else
      SubseqReflexive(xs);
      xs
  }

  /** Both stages in the order the pages apply them. */
  function StatusThenSearch<T(==)>(xs: seq<T>, status: Option<int>, statusOf: T -> int,
                                   term: string, fields: T -> seq<string>): (r: seq<T>)
    ensures IsSubseq(r, xs)
    ensures forall x :: x in xs ==> (x in r <==>
      (status.None? || statusOf(x) == status.value) && MatchesTerm(fields(x), term))
    ensures status.None? && term == "" ==> r == xs
  {
    var byStatus := ByStatus(xs, status, statusOf);
    var r := BySearch(byStatus, term, fields);
    SubseqTransitive(r, byStatus, xs);
    SubseqMembers(r, byStatus);
    r
  }
}
