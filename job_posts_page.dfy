/**
 * app/job-posts/page.tsx: the public job listing. Its filter state lives in
 * the URL: reading the query gives both the form state and the filter sent
 * to the API, and "Filtrele" writes the form state back into the query.
 */
module JobPostsPage {
  import opened Common
  import opened Text
  import opened Numerals
  import opened Flags
  import opened Seqs
  import opened JobPostApi

  /** A query string as its (key, value) pairs, in order. */
  type Params = seq<(string, string)>

  /** `searchParams.get(key)`: the first value under key, null when there is none. */
  function Get(params: Params, key: string): Option<string>
    decreases |params|
  {
    if params == [] then None
    else if params[0].0 == key then Some(params[0].1)
    else Get(params[1..], key)
  }

  /** Looking a key up in a concatenation looks in the first part first. */
  lemma {:induction false} GetConcat(x: Params, y: Params, key: string)
    ensures Get(x + y, key) == if Get(x, key).Some? then Get(x, key) else Get(y, key)
    decreases |x|
  {
    if x == [] {
      assert x + y == y;
    } else {
      assert (x + y)[1..] == x[1..] + y;
      GetConcat(x[1..], y, key);
    }
  }

  /** The form state: the search box, the district select, the two checkbox lists, experience and the disabled box. */
  datatype FilterState = FilterState(searchTerm: string, district: Option<string>, jobTypes: seq<JsNum>,
                                     educationLevels: seq<JsNum>, experience: Option<JsNum>,
                                     disabledOnly: bool)

  const Cleared := FilterState("", None, [], [], None, false)

  /** `s.split(",").map(Number)`. */
  function ParseList(s: string): (r: seq<JsNum>)
    ensures |r| == |Split(s, ',')|
    ensures forall i :: 0 <= i < |r| ==> r[i] == JsNumber(Split(s, ',')[i])
  {
    var pieces := Split(s, ',');
    seq(|pieces|, i requires 0 <= i < |pieces| => JsNumber(pieces[i]))
  }

  /** `xs.join(",")` on numbers: each written with `toString()`. */
  function ListString(xs: seq<JsNum>): (r: string)
    ensures xs != [] ==> r != ""
  {
    var strs := seq(|xs|, i requires 0 <= i < |xs| => JsNumToString(xs[i]));
    if xs != [] then
      NumeralNonEmpty(xs[0]);
      JoinNonEmpty(strs, ",");
      Join(strs, ",")
    else Join(strs, ",")
  }

  lemma NumeralNonEmpty(x: JsNum)
    ensures JsNumToString(x) != ""
  {
  }

  lemma JoinNonEmpty(parts: seq<string>, sep: string)
    requires |parts| >= 1 && parts[0] != ""
    ensures Join(parts, sep) != ""
  {
    if |parts| > 1 {
      assert |Join(parts, sep)| >= |parts[0]|;
    }
  }

  /** A numeral holds no comma, so a joined list splits back into its numerals. */
  lemma NumeralHasNoComma(x: JsNum)
    ensures ',' !in JsNumToString(x)
  {
    match x
    case NaN =>
    case Num(v) =>
      if v >= 0 {
        var s := NatToString(v);
        assert forall k :: 0 <= k < |s| ==> IsDigit(s[k]);
      } else {
        var s := NatToString(-v);
        assert forall k :: 0 <= k < |s| ==> IsDigit(s[k]);
        assert "-" + s == ['-'] + s;
      }
  }

  /** Reading back a written list gives the same numbers, NaN included. */
  lemma ListRoundTrip(xs: seq<JsNum>)
    requires xs != []
    ensures ParseList(ListString(xs)) == xs
  {
    var strs := seq(|xs|, i requires 0 <= i < |xs| => JsNumToString(xs[i]));
    forall k | 0 <= k < |strs|
      ensures ',' !in strs[k]
    {
      NumeralHasNoComma(xs[k]);
    }
    SplitJoin(strs, ',');
    assert Split(ListString(xs), ',') == strs;
    forall i | 0 <= i < |xs|
      ensures ParseList(ListString(xs))[i] == xs[i]
    {
      NumberOfToString(xs[i]);
    }
  }

  /** The 32-bit patterns of a list of numbers. */
  function Bits(xs: seq<JsNum>): (r: seq<bv32>)
    ensures |r| == |xs|
    ensures forall x :: x in xs ==> ToBits(x) in r
    ensures forall b :: b in r ==> exists x :: x in xs && ToBits(x) == b
  {
    var r := seq(|xs|, i requires 0 <= i < |xs| => ToBits(xs[i]));
    assert forall i :: 0 <= i < |xs| ==> r[i] == ToBits(xs[i]);
    r
  }

  /** `s.split(",").map(Number).reduce((acc, val) => acc | val, 0)`, as a bit pattern. */
  function MaskOf(s: string): bv32
  {
    OrFold(Bits(ParseList(s)))
  }

  /** The signed 32-bit number a bitwise operator returns for a bit pattern. */
  function SignedOf(b: bv32): int
  {
    if b < 0x8000_0000 then b as int else b as int - 0x1_0000_0000
  }

  /** The mask of a comma list depends only on which numbers it lists: order and repetition do not matter. */
  lemma MaskIgnoresOrder(s: string, t: string)
    requires forall x :: x in ParseList(s) <==> x in ParseList(t)
    ensures MaskOf(s) == MaskOf(t)
  {
    var bs := Bits(ParseList(s));
    var bt := Bits(ParseList(t));
    forall b
      ensures b in bs <==> b in bt
    {
      if b in bs {
        var x :| x in ParseList(s) && ToBits(x) == b;
        assert x in ParseList(t);
      }
      if b in bt {
        var x :| x in ParseList(t) && ToBits(x) == b;
        assert x in ParseList(s);
      }
    }
    OrFoldSameMembers(bs, bt);
  }

  /** A single-bit flag is set in the mask exactly when some listed number sets it. */
  lemma MaskChecks(s: string, flag: bv32)
    requires SingleBit(flag)
    ensures IsChecked(MaskOf(s), flag) <==> exists x :: x in ParseList(s) && IsChecked(ToBits(x), flag)
  {
    var bs := Bits(ParseList(s));
    OrFoldChecks(bs, flag);
    if IsChecked(MaskOf(s), flag) {
      var b :| b in bs && IsChecked(b, flag);
      var x :| x in ParseList(s) && ToBits(x) == b;
    }
  }

  /** The form state the URL effect sets (lines 98-105). */
  function StateFromParams(params: Params): (r: FilterState)
    ensures Get(params, "search").None? ==> r.searchTerm == ""
    ensures r.district.Some? ==> r.district.value != ""
    ensures r.disabledOnly <==> Get(params, "disabled") == Some("true")
    ensures Get(params, "jobTypes").None? ==> r.jobTypes == []
    ensures Get(params, "educationLevels").None? ==> r.educationLevels == []
  {
    var search := Get(params, "search");
    var district := Get(params, "district");
    var jobTypes := Get(params, "jobTypes");
    var educationLevels := Get(params, "educationLevels");
    var experience := Get(params, "experience");
    FilterState(
      if Present(search) then search.value else "",
      if Present(district) then district else None,
      if Present(jobTypes) then ParseList(jobTypes.value) else [],
      if Present(educationLevels) then ParseList(educationLevels.value) else [],
      if Present(experience) then Some(JsNumber(experience.value)) else None,
      Get(params, "disabled") == Some("true"))
  }

  /** The filter object the URL effect sends (lines 82-96), in its key order. */
  function FilterFromParams(params: Params): (r: seq<(string, JsValue)>)
    ensures |r| == 6
    ensures r[5].1 == JBool(true) || r[5].1 == Undefined
    ensures !Present(Get(params, "jobTypes")) ==> r[2].1 == Undefined
    ensures !Present(Get(params, "educationLevels")) ==> r[3].1 == Undefined
  {
    var search := Get(params, "search");
    var district := Get(params, "district");
    var jobTypes := Get(params, "jobTypes");
    var educationLevels := Get(params, "educationLevels");
    var experience := Get(params, "experience");
    [("title", if Present(search) then JStr(search.value) else Undefined),
     ("districts", if Present(district) then JList([district.value]) else Undefined),
     ("jobTypes", if Present(jobTypes) then JNum(JsNum.Num(SignedOf(MaskOf(jobTypes.value)))) else Undefined),
     ("requiredEducationLevel",
      if Present(educationLevels) then JNum(JsNum.Num(SignedOf(MaskOf(educationLevels.value)))) else Undefined),
     ("experienceLevel", if Present(experience) then JNum(JsNumber(experience.value)) else Undefined),
     ("isDisabledFriendly", if Get(params, "disabled") == Some("true") then JBool(true) else Undefined)]
  }

  /** The filter sent is the form state shown: a flag mask is the OR of the listed numbers. */
  lemma FilterAgreesWithState(params: Params)
    ensures FilterFromParams(params)[0].1 == (if StateFromParams(params).searchTerm == "" then Undefined
                                              else JStr(StateFromParams(params).searchTerm))
    ensures FilterFromParams(params)[1].1 == (if StateFromParams(params).district.None? then Undefined
                                              else JList([StateFromParams(params).district.value]))
    ensures FilterFromParams(params)[2].1.JNum? ==>
              FilterFromParams(params)[2].1 == JNum(JsNum.Num(SignedOf(OrFold(Bits(StateFromParams(params).jobTypes)))))
    ensures FilterFromParams(params)[3].1.JNum? ==>
              FilterFromParams(params)[3].1 ==
              JNum(JsNum.Num(SignedOf(OrFold(Bits(StateFromParams(params).educationLevels)))))
    ensures FilterFromParams(params)[4].1 == (if StateFromParams(params).experience.None? then Undefined
                                              else JNum(StateFromParams(params).experience.value))
    ensures FilterFromParams(params)[5].1 == (if StateFromParams(params).disabledOnly then JBool(true) else Undefined)
  {
    var jobTypes := Get(params, "jobTypes");
    var educationLevels := Get(params, "educationLevels");
    if Present(jobTypes) {
      assert StateFromParams(params).jobTypes == ParseList(jobTypes.value);
    }
    if Present(educationLevels) {
      assert StateFromParams(params).educationLevels == ParseList(educationLevels.value);
    }
  }

  /** `params.set(key, value)` when the condition holds. */
  function SetIf(cond: bool, key: string, value: string): Params
  {
    if cond then [(key, value)] else []
  }

  /** The query `updateURLParams` writes (lines 110-124), one conditional `set` after another. */
  function ParamsOf(st: FilterState): Params
  {
    SetIf(st.searchTerm != "", "search", st.searchTerm) +
    SetIf(Present(st.district), "district", if st.district.Some? then st.district.value else "") +
    SetIf(st.jobTypes != [], "jobTypes", ListString(st.jobTypes)) +
    SetIf(st.educationLevels != [], "educationLevels", ListString(st.educationLevels)) +
    SetIf(st.experience.Some?, "experience", if st.experience.Some? then JsNumToString(st.experience.value) else "") +
    SetIf(st.disabledOnly, "disabled", "true")
  }

  lemma GetSetIf(cond: bool, k: string, v: string, key: string)
    ensures Get(SetIf(cond, k, v), key) == if cond && k == key then Some(v) else None
  {
    if cond {
      assert SetIf(cond, k, v)[1..] == [];
    }
  }

  /** Six conditional writes under distinct keys: each key reads back its own write. */
  lemma GetSixWrites(c1: bool, v1: string, c2: bool, v2: string, c3: bool, v3: string,
                     c4: bool, v4: string, c5: bool, v5: string, c6: bool, v6: string, key: string)
    ensures Get(SetIf(c1, "search", v1) + SetIf(c2, "district", v2) + SetIf(c3, "jobTypes", v3) +
              SetIf(c4, "educationLevels", v4) + SetIf(c5, "experience", v5) + SetIf(c6, "disabled", v6), key) ==
            if key == "search" then (if c1 then Some(v1) else None)
            else if key == "district" then (if c2 then Some(v2) else None)
            else if key == "jobTypes" then (if c3 then Some(v3) else None)
            else if key == "educationLevels" then (if c4 then Some(v4) else None)
            else if key == "experience" then (if c5 then Some(v5) else None)
            else if key == "disabled" then (if c6 then Some(v6) else None)
            else None
  {
    var a1, a2, a3 := SetIf(c1, "search", v1), SetIf(c2, "district", v2), SetIf(c3, "jobTypes", v3);
    var a4, a5, a6 := SetIf(c4, "educationLevels", v4), SetIf(c5, "experience", v5), SetIf(c6, "disabled", v6);
    GetConcat(a1 + a2 + a3 + a4 + a5, a6, key);
    GetConcat(a1 + a2 + a3 + a4, a5, key);
    GetConcat(a1 + a2 + a3, a4, key);
    GetConcat(a1 + a2, a3, key);
    GetConcat(a1, a2, key);
    GetSetIf(c1, "search", v1, key);
    GetSetIf(c2, "district", v2, key);
    GetSetIf(c3, "jobTypes", v3, key);
    GetSetIf(c4, "educationLevels", v4, key);
    GetSetIf(c5, "experience", v5, key);
    GetSetIf(c6, "disabled", v6, key);
  }

  /** The value `updateURLParams` writes under a key, if any. */
  function Written(st: FilterState, key: string): Option<string>
  {
    if key == "search" then (if st.searchTerm != "" then Some(st.searchTerm) else None)
    else if key == "district" then (if Present(st.district) then st.district else None)
    else if key == "jobTypes" then (if st.jobTypes != [] then Some(ListString(st.jobTypes)) else None)
    else if key == "educationLevels" then
      (if st.educationLevels != [] then Some(ListString(st.educationLevels)) else None)
    else if key == "experience" then
      (if st.experience.Some? then Some(JsNumToString(st.experience.value)) else None)
    else if key == "disabled" then (if st.disabledOnly then Some("true") else None)
    else None
  }

  /**
   * What the query holds under each key: a parameter is written only when
   * its state is non-empty or defined (experience 0 included), "disabled"
   * only as "true", and nothing else is written.
   */
  lemma ParamsWritten(st: FilterState, key: string)
    ensures Get(ParamsOf(st), key) == Written(st, key)
  {
    GetSixWrites(st.searchTerm != "", st.searchTerm,
                 Present(st.district), if st.district.Some? then st.district.value else "",
                 st.jobTypes != [], ListString(st.jobTypes),
                 st.educationLevels != [], ListString(st.educationLevels),
                 st.experience.Some?, if st.experience.Some? then JsNumToString(st.experience.value) else "",
                 st.disabledOnly, "true", key);
  }

  /**
   * Writing the form state into the URL and reading it back gives the same
   * state, when no district is the empty string (the select offers none).
   */
  lemma StateRoundTrip(st: FilterState)
    requires st.district != Some("")
    ensures StateFromParams(ParamsOf(st)) == st
  {
    ParamsWritten(st, "search");
    ParamsWritten(st, "district");
    ParamsWritten(st, "jobTypes");
    ParamsWritten(st, "educationLevels");
    ParamsWritten(st, "experience");
    ParamsWritten(st, "disabled");
    if st.jobTypes != [] {
      ListRoundTrip(st.jobTypes);
    }
    if st.educationLevels != [] {
      ListRoundTrip(st.educationLevels);
    }
    if st.experience.Some? {
      NumeralNonEmpty(st.experience.value);
      NumberOfToString(st.experience.value);
    }
  }

  /** `Number(key)` is on the list the checkbox reads (lines 186 and 234). */
  predicate Listed(xs: seq<JsNum>, key: int)
  {
    JsNum.Num(key) in xs
  }

  /** Checking a box appends its key (lines 189-192 and 237-240). */
  function WithKey(xs: seq<JsNum>, key: int): (r: seq<JsNum>)
    ensures |r| == |xs| + 1 && r[..|xs|] == xs
    ensures Listed(r, key)
  {
    xs + [JsNum.Num(key)]
  }

  /** Unchecking removes every occurrence of the key and keeps the rest in order (lines 194-198 and 242-246). */
  function WithoutKey(xs: seq<JsNum>, key: int): (r: seq<JsNum>)
    ensures IsSubseq(r, xs)
    ensures !Listed(r, key)
    ensures forall x :: x in xs && x != JsNum.Num(key) ==> x in r
  {
    FilterSeq(xs, (x: JsNum) => x != JsNum.Num(key))
  }

  /** Unchecking after checking leaves no trace of the key and keeps every other entry. */
  lemma CheckThenUncheck(xs: seq<JsNum>, key: int)
    ensures !Listed(WithoutKey(WithKey(xs, key), key), key)
    ensures forall x :: x in xs && x != JsNum.Num(key) ==> x in WithoutKey(WithKey(xs, key), key)
    ensures !Listed(xs, key) ==> WithoutKey(WithKey(xs, key), key) == xs
  {
    if !Listed(xs, key) {
      var keep := (x: JsNum) => x != JsNum.Num(key);
      FilterAppend(xs, JsNum.Num(key), keep);
      assert FilterSeq(xs, keep) == xs;
    }
  }

  class ListingPage {
    var currentPage: int
    var jobs: seq<JobPost>
    var totalPages: int
    var totalItems: int
    var loading: bool
    var searchTerm: string
    var selectedDistrict: Option<string>
    var selectedJobTypes: seq<JsNum>
    var selectedEducationLevels: seq<JsNum>
    var selectedExperience: Option<JsNum>
    var isDisabledOnly: bool
    var filterCalls: seq<seq<(string, JsValue)>>
    var navigations: seq<Target>

    /** The form state held in the six filter fields. */
    function Filters(): FilterState
      reads this`searchTerm, this`selectedDistrict, this`selectedJobTypes, this`selectedEducationLevels,
            this`selectedExperience, this`isDisabledOnly
    {
      FilterState(searchTerm, selectedDistrict, selectedJobTypes, selectedEducationLevels, selectedExperience,
                  isDisabledOnly)
    }

    /** The initial state (lines 36-52). */
    constructor ()
      ensures Filters() == Cleared
      ensures currentPage == 1 && jobs == [] && totalPages == 1 && totalItems == 0 && loading
      ensures filterCalls == [] && navigations == []
    {
      currentPage := 1;
      jobs := [];
      totalPages := 1;
      totalItems := 0;
      loading := true;
      searchTerm := "";
      selectedDistrict := None;
      selectedJobTypes := [];
      selectedEducationLevels := [];
      selectedExperience := None;
      isDisabledOnly := false;
      filterCalls := [];
      navigations := [];
    }

    /**
     * fetchJobs (lines 58-71): one filter call; a missing or zero page count
     * shows as 1 page and a zero item count as the number of jobs received.
     */
    method FetchJobs(filters: seq<(string, JsValue)>, response: Result<PagedResult>)
      modifies this`loading, this`jobs, this`totalPages, this`totalItems, this`filterCalls
      ensures filterCalls == old(filterCalls) + [filters] && !loading
      ensures response.Ok? ==>
                jobs == response.value.data &&
                totalPages == (if response.value.totalPages == 0 then 1 else response.value.totalPages) &&
                totalItems == (if response.value.totalItems == 0 then |response.value.data|
                               else response.value.totalItems)
      ensures response.Ok? ==> totalPages >= 1 || totalPages == response.value.totalPages < 0
      ensures response.Err? ==> jobs == old(jobs) && totalPages == old(totalPages) && totalItems == old(totalItems)
    {
      loading := true;
      filterCalls := filterCalls + [filters];
      if response.Ok? {
        jobs := response.value.data;
        totalPages := if response.value.totalPages != 0 then response.value.totalPages else 1;
        totalItems := if response.value.totalItems != 0 then response.value.totalItems else |response.value.data|;
      }
      loading := false;
    }

    /** The six setters the URL effect calls (lines 98-105). */
    method ShowFilters(st: FilterState)
      modifies this`searchTerm, this`selectedDistrict, this`selectedJobTypes, this`selectedEducationLevels,
               this`selectedExperience, this`isDisabledOnly
      ensures Filters() == st
    {
      searchTerm := st.searchTerm;
      selectedDistrict := st.district;
      selectedJobTypes := st.jobTypes;
      selectedEducationLevels := st.educationLevels;
      selectedExperience := st.experience;
      isDisabledOnly := st.disabledOnly;
    }

    /**
     * The URL effect (lines 74-108): the form shows what the query says and
     * the filter the query describes is fetched.
     */
    method OnSearchParams(params: Params, response: Result<PagedResult>)
      modifies this`searchTerm, this`selectedDistrict, this`selectedJobTypes, this`selectedEducationLevels,
               this`selectedExperience, this`isDisabledOnly, this`loading, this`jobs, this`totalPages,
               this`totalItems, this`filterCalls
      ensures Filters() == StateFromParams(params)
      ensures filterCalls == old(filterCalls) + [FilterFromParams(params)]
      ensures currentPage == old(currentPage) && navigations == old(navigations) && !loading
      ensures response.Ok? ==>
                jobs == response.value.data &&
                totalPages == (if response.value.totalPages == 0 then 1 else response.value.totalPages) &&
                totalItems == (if response.value.totalItems == 0 then |response.value.data|
                               else response.value.totalItems)
      ensures response.Err? ==> jobs == old(jobs) && totalPages == old(totalPages) && totalItems == old(totalItems)
    {
      ShowFilters(StateFromParams(params));
      FetchJobs(FilterFromParams(params), response);
    }

    /** updateURLParams (lines 110-124): push "?" and the query of the form state. */
    method UpdateURLParams()
      modifies this`navigations
      ensures navigations == old(navigations) + [Target("", ParamsOf(Filters()))]
    {
      // Each step is one `if (…) params.set(key, value)` of the source.
      var params := SetIf(searchTerm != "", "search", searchTerm);
      params := params + SetIf(Present(selectedDistrict), "district",
                               if selectedDistrict.Some? then selectedDistrict.value else "");
      params := params + SetIf(selectedJobTypes != [], "jobTypes", ListString(selectedJobTypes));
      params := params + SetIf(selectedEducationLevels != [], "educationLevels", ListString(selectedEducationLevels));
      params := params + SetIf(selectedExperience.Some?, "experience",
                               if selectedExperience.Some? then JsNumToString(selectedExperience.value) else "");
      params := params + SetIf(isDisabledOnly, "disabled", "true");
      navigations := navigations + [Target("", params)];
    }

    /** resetFilters (lines 130-139): clear every filter, go to page 1 and push "/". */
    method ResetFilters()
      modifies this`searchTerm, this`selectedDistrict, this`selectedJobTypes, this`selectedEducationLevels,
               this`selectedExperience, this`isDisabledOnly, this`currentPage, this`navigations
      ensures Filters() == Cleared && currentPage == 1
      ensures navigations == old(navigations) + [PathOnly("/")]
    {
      searchTerm := "";
      selectedDistrict := None;
      selectedJobTypes := [];
      selectedEducationLevels := [];
      selectedExperience := None;
      isDisabledOnly := false;
      currentPage := 1;
      navigations := navigations + [PathOnly("/")];
    }

    /** A job-type checkbox (lines 185-200). */
    method SetJobTypeChecked(key: int, checked: bool)
      modifies this`selectedJobTypes
      ensures selectedJobTypes == if checked then WithKey(old(selectedJobTypes), key)
                                  else WithoutKey(old(selectedJobTypes), key)
      ensures Listed(selectedJobTypes, key) == checked
    {
      if checked {
        selectedJobTypes := selectedJobTypes + [JsNum.Num(key)];
      } else {
        selectedJobTypes := FilterSeq(selectedJobTypes, (t: JsNum) => t != JsNum.Num(key));
      }
    }

    /** An education-level checkbox (lines 233-250). */
    method SetEducationLevelChecked(key: int, checked: bool)
      modifies this`selectedEducationLevels
      ensures selectedEducationLevels == if checked then WithKey(old(selectedEducationLevels), key)
                                         else WithoutKey(old(selectedEducationLevels), key)
      ensures Listed(selectedEducationLevels, key) == checked
    {
      if checked {
        selectedEducationLevels := selectedEducationLevels + [JsNum.Num(key)];
      } else {
        selectedEducationLevels := FilterSeq(selectedEducationLevels, (t: JsNum) => t != JsNum.Num(key));
      }
    }

    /** The experience select (line 212): the chosen key through `Number`. */
    method SetExperience(value: string)
      modifies this`selectedExperience
      ensures selectedExperience == Some(JsNumber(value))
    {
      selectedExperience := Some(JsNumber(value));
    }

    /** The pagination strip (line 336) only sets the page; no new fetch follows. */
    method SetCurrentPage(p: int)
      modifies this`currentPage
      ensures currentPage == p
    {
      currentPage := p;
    }
  }

  /**
   * "Filtrele" then the URL effect: the form state survives the trip through
   * the query, so the page fetches exactly what the form showed.
   */
  lemma FilterCycle(st: FilterState)
    requires st.district != Some("")
    ensures StateFromParams(ParamsOf(st)) == st
    ensures FilterFromParams(ParamsOf(st))[0].1 == (if st.searchTerm == "" then Undefined else JStr(st.searchTerm))
    ensures FilterFromParams(ParamsOf(st))[5].1 == (if st.disabledOnly then JBool(true) else Undefined)
    ensures st.jobTypes != [] ==>
              FilterFromParams(ParamsOf(st))[2].1 == JNum(JsNum.Num(SignedOf(OrFold(Bits(st.jobTypes)))))
    ensures st.jobTypes == [] ==> FilterFromParams(ParamsOf(st))[2].1 == Undefined
  {
    StateRoundTrip(st);
    FilterAgreesWithState(ParamsOf(st));
    ParamsWritten(st, "jobTypes");
  }
}
