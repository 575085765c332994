/**
 * components/JobListings.tsx: the home page's latest posts and the
 * per-category histogram built from them.
 */
module JobListings {
  import opened Common
  import opened Seqs
  import opened JobPostApi

  datatype CategoryCount = CategoryCount(name: string, count: int)

  /** The category of every job, in order. */
  function CategoryNames(jobs: seq<JobPost>): (r: seq<string>)
    ensures |r| == |jobs|
    ensures forall i :: 0 <= i < |jobs| ==> r[i] == jobs[i].categoryName
  {
    seq(|jobs|, i requires 0 <= i < |jobs| => jobs[i].categoryName)
  }

  /** The sum of the counts the accumulator holds for the listed names. */
  function Total(names: seq<string>, counts: map<string, int>): int
    requires forall n :: n in names ==> n in counts
    decreases |names|
  {
    if names == [] then 0
    else Total(names[..|names| - 1], counts) + counts[names[|names| - 1]]
  }

  /** The sum of the counts of a category list. */
  function SumCounts(categories: seq<CategoryCount>): int
    decreases |categories|
  {
    if categories == [] then 0
    else SumCounts(categories[..|categories| - 1]) + categories[|categories| - 1].count
  }

  /** The list built from the accumulator sums to the accumulator's total. */
  lemma {:induction false} SumMatchesTotal(names: seq<string>, counts: map<string, int>, categories: seq<CategoryCount>)
    requires forall n :: n in names ==> n in counts
    requires |categories| == |names|
    requires forall k :: 0 <= k < |names| ==> categories[k] == CategoryCount(names[k], counts[names[k]])
    ensures SumCounts(categories) == Total(names, counts)
    decreases |names|
  {
    if names != [] {
      var m := |names| - 1;
      assert forall x :: x in names[..m] ==> x in names;
      SumMatchesTotal(names[..m], counts, categories[..m]);
    }
  }

  predicate Distinct(names: seq<string>)
  {
    forall i, j :: 0 <= i < j < |names| ==> names[i] != names[j]
  }

  /** Each distinct name once, in the order of its first occurrence. */
  function FirstSeen(xs: seq<string>): seq<string>
    decreases |xs|
  {
    if xs == [] then []
    else
      var init := FirstSeen(xs[..|xs| - 1]);
      var x := xs[|xs| - 1];
      if x in init then init else init + [x]
  }

  /** The first-seen list holds every name of `xs`, each once. */
  lemma {:induction false} FirstSeenNames(xs: seq<string>)
    ensures forall x :: x in FirstSeen(xs) <==> x in xs
    ensures Distinct(FirstSeen(xs))
    decreases |xs|
  {
    if xs != [] {
      var init := xs[..|xs| - 1];
      assert xs == init + [xs[|xs| - 1]];
      FirstSeenNames(init);
    }
  }

  /** One more name either is already listed or joins the end of the list. */
  lemma FirstSeenSnoc(seen: seq<string>, name: string)
    ensures FirstSeen(seen + [name]) ==
            if name in FirstSeen(seen) then FirstSeen(seen) else FirstSeen(seen) + [name]
  {
    assert (seen + [name])[..|seen|] == seen;
  }

  /**
   * The names met in the first k items come first, in the same order: a
   * name first met before another is listed before it.
   */
  lemma {:induction false} FirstSeenGrows(xs: seq<string>, k: int)
    requires 0 <= k <= |xs|
    ensures FirstSeen(xs[..k]) <= FirstSeen(xs)
    decreases |xs|
  {
    if k < |xs| {
      var init := xs[..|xs| - 1];
      assert init[..k] == xs[..k];
      FirstSeenGrows(init, k);
    } else {
      assert xs[..k] == xs;
    }
  }

  /** Raising one listed name's count by one raises the total by one. */
  lemma {:induction false} TotalBump(names: seq<string>, counts: map<string, int>, n: string)
    requires forall m :: m in names ==> m in counts
    requires Distinct(names) && n in names
    ensures Total(names, counts[n := counts[n] + 1]) == Total(names, counts) + 1
    decreases |names|
  {
    var init := names[..|names| - 1];
    var last := names[|names| - 1];
    if last == n {
      TotalUntouched(init, counts, n, counts[n] + 1);
    } else {
      assert n in init by {
        var k :| 0 <= k < |names| && names[k] == n;
        assert init[k] == n;
      }
      TotalBump(init, counts, n);
    }
  }

  /** Changing the count of an unlisted name leaves the total alone. */
  lemma {:induction false} TotalUntouched(names: seq<string>, counts: map<string, int>, n: string, v: int)
    requires forall m :: m in names ==> m in counts
    requires n !in names
    ensures Total(names, counts[n := v]) == Total(names, counts)
    decreases |names|
  {
    if names != [] {
      var init := names[..|names| - 1];
      assert forall m :: m in init ==> m in names;
      TotalUntouched(init, counts, n, v);
    }
  }

  /** The accumulator after the categories `seen` have been counted. */
  ghost predicate Tally(names: seq<string>, counts: map<string, int>, seen: seq<string>)
  {
    (forall n :: n in counts <==> n in names) &&
    Distinct(names) &&
    (forall n :: n in names <==> n in seen) &&
    (forall n :: n in names ==> counts[n] == Count(seen, n)) &&
    Total(names, counts) == |seen|
  }

  /**
   * One step of the reduce (lines 29-31): an unseen name starts at 0 and is
   * appended to the keys; then its count goes up by one.
   */
  lemma TallyStep(names: seq<string>, counts: map<string, int>, seen: seq<string>, name: string)
    requires Tally(names, counts, seen)
    ensures var names' := if name in counts then names else names + [name];
            var zeroed := if name in counts then counts else counts[name := 0];
            Tally(names', zeroed[name := zeroed[name] + 1], seen + [name])
  {
    if name in counts {
      BumpKeeps(names, counts, seen, name);
    } else {
      StartKeeps(names, counts, seen, name);
      BumpKeeps(names + [name], counts[name := 0], seen, name);
    }
  }

  /** A name not seen before joins the keys with count 0. */
  lemma StartKeeps(names: seq<string>, counts: map<string, int>, seen: seq<string>, name: string)
    requires Tally(names, counts, seen) && name !in counts
    ensures forall n :: n in counts[name := 0] <==> n in names + [name]
    ensures Distinct(names + [name]) && name in names + [name]
    ensures forall n :: n in names + [name] <==> n in seen || n == name
    ensures forall n :: n in names + [name] ==> counts[name := 0][n] == Count(seen, n)
    ensures Total(names + [name], counts[name := 0]) == |seen|
  {
    TotalUntouched(names, counts, name, 0);
    var names' := names + [name];
    assert names'[..|names|] == names;
    CountAppend(seen, name, name);
    assert Count(seen, name) == 0;
  }

  /** Counting one more occurrence of a listed name. */
  lemma BumpKeeps(names: seq<string>, counts: map<string, int>, seen: seq<string>, name: string)
    requires forall n :: n in counts <==> n in names
    requires Distinct(names) && name in names
    requires forall n :: n in names <==> n in seen || n == name
    requires forall n :: n in names ==> counts[n] == Count(seen, n)
    requires Total(names, counts) == |seen|
    ensures Tally(names, counts[name := counts[name] + 1], seen + [name])
  {
    TotalBump(names, counts, name);
    var counts' := counts[name := counts[name] + 1];
    forall n | n in names
      ensures counts'[n] == Count(seen + [name], n)
    {
      CountAppend(seen, name, n);
    }
    forall n
      ensures n in names <==> n in seen + [name]
    {
    }
  }

  /** A tally has at least one occurrence behind each name, hence no more names than items. */
  lemma {:induction false} TotalAtLeastLength(names: seq<string>, counts: map<string, int>)
    requires forall n :: n in names ==> n in counts && counts[n] >= 1
    ensures Total(names, counts) >= |names|
    decreases |names|
  {
    if names != [] {
      var init := names[..|names| - 1];
      assert forall m :: m in init ==> m in names;
      TotalAtLeastLength(init, counts);
    }
  }

  /**
   * What the histogram of lines 27-39 promises: each distinct category
   * once, in the order it is first met, with the number of jobs in it;
   * every job's category listed, nothing else, and the counts adding up to
   * the number of jobs.
   */
  ghost predicate Histogram(jobs: seq<JobPost>, categories: seq<CategoryCount>)
  {
    (forall i, j :: 0 <= i < j < |categories| ==> categories[i].name != categories[j].name) &&
    (forall i :: 0 <= i < |categories| ==>
       categories[i].count == Count(CategoryNames(jobs), categories[i].name) && categories[i].count >= 1) &&
    (forall job :: job in jobs ==> exists i :: 0 <= i < |categories| && categories[i].name == job.categoryName) &&
    (forall i :: 0 <= i < |categories| ==> categories[i].name in CategoryNames(jobs)) &&
    |categories| <= |jobs| &&
    SumCounts(categories) == |jobs| &&
    |categories| == |FirstSeen(CategoryNames(jobs))| &&
    (forall i :: 0 <= i < |categories| ==> categories[i].name == FirstSeen(CategoryNames(jobs))[i])
  }

  /**
   * The `reduce` of lines 27-33 and the `map` of lines 36-39: each distinct
   * category once, in order of first appearance, with the number of jobs in
   * it.
   */
  method CountCategories(jobs: seq<JobPost>) returns (categories: seq<CategoryCount>)
    ensures Histogram(jobs, categories)
  {
    var names: seq<string> := [];
    var counts: map<string, int> := map[];
    ghost var seen: seq<string> := [];
    var i := 0;
    while i < |jobs|
      invariant 0 <= i <= |jobs|
      invariant seen == CategoryNames(jobs[..i])
      invariant Tally(names, counts, seen)
      invariant names == FirstSeen(seen)
    {
      var name := jobs[i].categoryName;
      NamesSnoc(jobs, i);
      OrderStep(names, counts, seen, name);
      names, counts := Record(names, counts, seen, name);
      seen := seen + [name];
      i := i + 1;
    }
    assert jobs[..i] == jobs;
    categories := Pair(names, counts);
    HistogramOfTally(names, counts, jobs, categories);
  }

  /**
   * The reduce callback of lines 28-32 for one job's category: an unseen
   * name starts at 0 and joins the keys, then its count goes up by one.
   */
  method Record(names: seq<string>, counts: map<string, int>, ghost seen: seq<string>, name: string)
    returns (names': seq<string>, counts': map<string, int>)
    requires Tally(names, counts, seen)
    ensures Tally(names', counts', seen + [name])
    ensures names' == if name in counts then names else names + [name]
  {
    TallyStep(names, counts, seen, name);
    var zeroed := if name in counts then counts else counts[name := 0];
    names' := if name in counts then names else names + [name];
    counts' := zeroed[name := zeroed[name] + 1];
  }

  /** The keys grow in first-seen order (the append of line 30). */
  lemma OrderStep(names: seq<string>, counts: map<string, int>, seen: seq<string>, name: string)
    requires forall n :: n in counts <==> n in names
    requires names == FirstSeen(seen)
    ensures (if name in counts then names else names + [name]) == FirstSeen(seen + [name])
  {
    FirstSeenSnoc(seen, name);
  }

  lemma NamesSnoc(jobs: seq<JobPost>, i: int)
    requires 0 <= i < |jobs|
    ensures CategoryNames(jobs[..i + 1]) == CategoryNames(jobs[..i]) + [jobs[i].categoryName]
  {
  }

  /** The `map` of lines 36-39: each key with its count. */
  method Pair(names: seq<string>, counts: map<string, int>) returns (categories: seq<CategoryCount>)
    requires forall n :: n in names ==> n in counts
    ensures |categories| == |names|
    ensures forall k :: 0 <= k < |names| ==> names[k] in counts && categories[k] == CategoryCount(names[k], counts[names[k]])
  {
    categories := seq(|names|, k requires 0 <= k < |names| => CategoryCount(names[k], counts[names[k]]));
  }

  /** The keys and counts of a finished tally, paired up, make the histogram. */
  lemma HistogramOfTally(names: seq<string>, counts: map<string, int>, jobs: seq<JobPost>, categories: seq<CategoryCount>)
    requires Tally(names, counts, CategoryNames(jobs)) && names == FirstSeen(CategoryNames(jobs))
    requires |categories| == |names|
    requires forall k :: 0 <= k < |names| ==> names[k] in counts && categories[k] == CategoryCount(names[k], counts[names[k]])
    ensures Histogram(jobs, categories)
  {
    TallyCategories(names, counts, jobs, categories);
    CategoriesInOrder(names, counts, jobs, categories);
  }

  /** The list built from the final keys follows the first-seen order. */
  lemma CategoriesInOrder(names: seq<string>, counts: map<string, int>, jobs: seq<JobPost>, categories: seq<CategoryCount>)
    requires names == FirstSeen(CategoryNames(jobs))
    requires |categories| == |names|
    requires forall k :: 0 <= k < |names| ==> names[k] in counts && categories[k] == CategoryCount(names[k], counts[names[k]])
    ensures |categories| == |FirstSeen(CategoryNames(jobs))|
    ensures forall i :: 0 <= i < |categories| ==> categories[i].name == FirstSeen(CategoryNames(jobs))[i]
  {
  }

  /** What the final tally says about the list built from it. */
  lemma TallyCategories(names: seq<string>, counts: map<string, int>, jobs: seq<JobPost>, categories: seq<CategoryCount>)
    requires Tally(names, counts, CategoryNames(jobs))
    requires |categories| == |names|
    requires forall k :: 0 <= k < |names| ==> categories[k] == CategoryCount(names[k], counts[names[k]])
    ensures forall i, j :: 0 <= i < j < |categories| ==> categories[i].name != categories[j].name
    ensures forall i :: 0 <= i < |categories| ==>
              categories[i].count == Count(CategoryNames(jobs), categories[i].name) && categories[i].count >= 1
    ensures forall job :: job in jobs ==> exists i :: 0 <= i < |categories| && categories[i].name == job.categoryName
    ensures forall i :: 0 <= i < |categories| ==> categories[i].name in CategoryNames(jobs)
    ensures |categories| <= |jobs|
    ensures SumCounts(categories) == |jobs|
  {
    var seen := CategoryNames(jobs);
    forall i | 0 <= i < |categories|
      ensures categories[i].count == Count(seen, categories[i].name) && categories[i].count >= 1
    {
      assert names[i] in names;
    }
    forall job | job in jobs
      ensures exists k :: 0 <= k < |categories| && categories[k].name == job.categoryName
    {
      var m :| 0 <= m < |jobs| && jobs[m] == job;
      assert seen[m] == job.categoryName;
      assert seen[m] in seen;
      var k :| 0 <= k < |names| && names[k] == job.categoryName;
      assert categories[k].name == job.categoryName;
    }
    forall i | 0 <= i < |categories|
      ensures categories[i].name in seen
    {
      assert names[i] in names;
    }
    TotalAtLeastLength(names, counts);
    SumMatchesTotal(names, counts, categories);
  }

  class LatestPanel {
    var categories: seq<CategoryCount>
    var jobs: seq<JobPost>
    var loading: bool
    var requests: seq<int>

    /** The initial state (lines 13-15). */
    constructor ()
      ensures categories == [] && jobs == [] && loading && requests == []
    {
      categories := [];
      jobs := [];
      loading := true;
      requests := [];
    }

    /**
     * fetchData (lines 19-47): ask for the 4 latest posts; on success show
     * them and their histogram, on failure keep both as they were.
     */
    method FetchData(latest: Result<seq<JobPost>>)
      modifies this
      ensures requests == old(requests) + [LatestDefaultCount] && !loading
      ensures latest.Ok? ==> jobs == latest.value
      ensures latest.Ok? ==> Histogram(jobs, categories)
      ensures latest.Err? ==> jobs == old(jobs) && categories == old(categories)
    {
      requests := requests + [LatestDefaultCount];
      if latest.Ok? {
        jobs := latest.value;
        categories := CountCategories(latest.value);
      }
      loading := false;
    }
  }
}
