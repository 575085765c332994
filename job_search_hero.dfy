/**
 * components/JobSearchHero.tsx: the home page's search box. It writes a
 * title and a district into the listing page's query, which reads them back
 * as its search term and district.
 */
module JobSearchHero {
  import opened Common
  import opened JobPostApi
  import opened JobPostsPage

  const Suggestions := ["Tasarım", "Programlama", "Dijital Pazarlama", "Video", "Animasyon"]

  /** The query `handleSearch` builds (lines 22-29): search before district, each only when non-empty. */
  function HeroParams(title: string, district: string): (r: Params)
    ensures |r| == (if title != "" then 1 else 0) + (if district != "" then 1 else 0)
    ensures title != "" ==> r[0] == ("search", title)
    ensures district != "" ==> r[|r| - 1] == ("district", district)
  {
    SetIf(title != "", "search", title) + SetIf(district != "", "district", district)
  }

  /** Reading the hero's query: "search" holds the title and "district" the district, when non-empty. */
  lemma HeroQuery(title: string, district: string, key: string)
    ensures Get(HeroParams(title, district), key) ==
              if key == "search" && title != "" then Some(title)
              else if key == "district" && district != "" then Some(district)
              else None
  {
    GetConcat(SetIf(title != "", "search", title), SetIf(district != "", "district", district), key);
    GetSetIf(title != "", "search", title, key);
    GetSetIf(district != "", "district", district, key);
  }

  /**
   * The listing page opened from the hero shows the title as its search
   * term and the district as its district, with every other filter clear,
   * and sends exactly those two to the API.
   */
  lemma HeroFeedsListing(title: string, district: string)
    ensures StateFromParams(HeroParams(title, district)) ==
              FilterState(title, if district == "" then None else Some(district), [], [], None, false)
    ensures FilterFromParams(HeroParams(title, district))[0].1 == (if title == "" then Undefined else JStr(title))
    ensures FilterFromParams(HeroParams(title, district))[1].1 ==
              (if district == "" then Undefined else JList([district]))
    ensures FilterFromParams(HeroParams(title, district))[2].1 == Undefined
    ensures FilterFromParams(HeroParams(title, district))[5].1 == Undefined
  {
    HeroQuery(title, district, "search");
    HeroQuery(title, district, "district");
    HeroQuery(title, district, "jobTypes");
    HeroQuery(title, district, "educationLevels");
    HeroQuery(title, district, "experience");
    HeroQuery(title, district, "disabled");
  }

  class Hero {
    var title: string
    var district: string
    var navigations: seq<Target>

    /** The initial state (lines 18-19). */
    constructor ()
      ensures title == "" && district == "" && navigations == []
    {
      title := "";
      district := "";
      navigations := [];
    }

    /** The title input (line 67). */
    method SetTitle(value: string)
      modifies this`title
      ensures title == value
    {
      title := value;
    }

    /** The district select (line 47). */
    method SetDistrict(value: string)
      modifies this`district
      ensures district == value
    {
      district := value;
    }

    /** handleSearch (lines 22-29): push "/job-posts?" with the query built one `set` at a time. */
    method HandleSearch()
      modifies this`navigations
      ensures navigations == old(navigations) + [Target("/job-posts", HeroParams(title, district))]
    {
      var params: Params := [];
      if title != "" {
        params := params + [("search", title)];
      }
      assert params == SetIf(title != "", "search", title);
      if district != "" {
        params := params + [("district", district)];
      }
      assert params == HeroParams(title, district);
      navigations := navigations + [Target("/job-posts", params)];
    }

    /** A suggestion click (lines 82-92): the title becomes the suggestion; the district stays. */
    method PickSuggestion(i: nat)
      modifies this`title
      requires i < |Suggestions|
      ensures title == Suggestions[i] && title != ""
      ensures district == old(district)
    {
      title := Suggestions[i];
    }
  }
}
