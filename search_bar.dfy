/**
 * The search bar's state (eventbuddy_app/components/SearchBar.tsx): the search
 * parameters with their tag list, whether all tags are shown, and the search
 * text with whether results are shown. Each React state setter becomes an
 * assignment to a field.
 */
module SearchBarComponent {
  import opened Seqs
  import opened ListToggle

  /** The tags offered, in display order. */
  const AllTags: seq<string> :=
    ["Music", "Film", "Food", "Nightlife", "Art", "Sports", "Technology", "Fashion", "Education", "Health"]

  /** How many tags the collapsed view shows when nothing is selected. */
  const CollapsedTags := 5

  /** The keys of the search parameters; JavaScript numbers are `real`. */
  datatype ParamKey = Tags | Latitude | Longitude | Radius | StartDate | EndDate
  datatype ParamValue = TagList(tags: seq<string>) | Number(n: real)

  datatype SearchParams = SearchParams(
    tags: seq<string>, latitude: real, longitude: real, radius: real, start_date: real, end_date: real)

  /** The tag list holds tags, every other key a number. */
  predicate Fits(key: ParamKey, v: ParamValue) {
    (key == Tags) == v.TagList?
  }

  /** `params[key]`. */
  function Get(p: SearchParams, key: ParamKey): (v: ParamValue)
    ensures Fits(key, v)
  {
    match key
    case Tags => TagList(p.tags)
    case Latitude => Number(p.latitude)
    case Longitude => Number(p.longitude)
    case Radius => Number(p.radius)
    case StartDate => Number(p.start_date)
    case EndDate => Number(p.end_date)
  }

  /** Parameters that agree on every key are the same parameters. */
  lemma GetDetermines(p: SearchParams, q: SearchParams)
    requires forall k :: Get(p, k) == Get(q, k)
    ensures p == q
  {
    assert Get(p, Tags) == Get(q, Tags) && Get(p, Latitude) == Get(q, Latitude);
    assert Get(p, Longitude) == Get(q, Longitude) && Get(p, Radius) == Get(q, Radius);
    assert Get(p, StartDate) == Get(q, StartDate) && Get(p, EndDate) == Get(q, EndDate);
  }

  /** `{ ...params, [key]: value }`: the key takes the value, every other key keeps its own. */
  function Set(p: SearchParams, key: ParamKey, v: ParamValue): (r: SearchParams)
    requires Fits(key, v)
    ensures Get(r, key) == v
    ensures forall k :: k != key ==> Get(r, k) == Get(p, k)
  {
    match key
    case Tags => p.(tags := v.tags)
    case Latitude => p.(latitude := v.n)
    case Longitude => p.(longitude := v.n)
    case Radius => p.(radius := v.n)
    case StartDate => p.(start_date := v.n)
    case EndDate => p.(end_date := v.n)
  }

  function NotIn(selected: seq<string>): string -> bool {
    (t: string) => t !in selected
  }

  /** allTags.filter(tag => !selectedTags.includes(tag)). */
  function Unselected(allTags: seq<string>, selected: seq<string>): (u: seq<string>)
    ensures forall t :: t in u <==> t in allTags && t !in selected
  {
    Filter(allTags, NotIn(selected))
  }

  /** Math.max(0, 5 - selectedTags.length). */
  function CollapsedLimit(selected: seq<string>): (n: nat)
    ensures |selected| + n >= CollapsedTags
    ensures n == 0 || |selected| + n == CollapsedTags
  {
    if |selected| < CollapsedTags then CollapsedTags - |selected| else 0
  }

  /**
   * tagsToShow: the selected tags first, in their order, then unselected
   * tags in the order of `allTags` — all of them when expanded, otherwise only
   * as many as keep the total at five, and none once five are selected.
   */
  function TagsToShow(selected: seq<string>, allTags: seq<string>, showAll: bool): (r: seq<string>)
    ensures |selected| <= |r| <= |selected| + |Unselected(allTags, selected)|
    ensures r[..|selected|] == selected
    ensures r[|selected|..] == Unselected(allTags, selected)[..|r| - |selected|]
    ensures showAll ==> |r| == |selected| + |Unselected(allTags, selected)|
    ensures !showAll ==>
              (|r| - |selected| == if |Unselected(allTags, selected)| < CollapsedLimit(selected)
                                   then |Unselected(allTags, selected)| else CollapsedLimit(selected))
  {
    var unselected := Unselected(allTags, selected);
    var r := if showAll then selected + unselected else selected + Take(unselected, CollapsedLimit(selected));
    assert r[|selected|..] == (if showAll then unselected else Take(unselected, CollapsedLimit(selected)));
    r
  }

  /** Collapsed, the list never grows past five unless more than five tags are selected. */
  lemma CollapsedShowsAtMostFive(selected: seq<string>, allTags: seq<string>)
    ensures |TagsToShow(selected, allTags, false)| <= if |selected| < CollapsedTags then CollapsedTags else |selected|
  {
  }

  /** "Mehr...": collapsed, with fewer tags shown than there are tags. */
  predicate OffersMore(selected: seq<string>, allTags: seq<string>, showAll: bool) {
    !showAll && |TagsToShow(selected, allTags, showAll)| < |allTags|
  }

  /** "Weniger...": expanded. */
  predicate OffersLess(showAll: bool) {
    showAll
  }

  /** With the ten tags and at most five selected, the collapsed bar offers "Mehr..." and not "Weniger...". */
  lemma MoreOfferedWhileFewSelected(selected: seq<string>)
    requires |selected| <= CollapsedTags
    ensures OffersMore(selected, AllTags, false) && !OffersLess(false)
  {
    CollapsedShowsAtMostFive(selected, AllTags);
  }

  class SearchBar {
    var searchParams: SearchParams
    var showAllTags: bool
    var searchText: string
    var showSearchResults: bool

    /** The initial state: no tags, central Berlin, 10 km, today's timestamp `now` for both dates. */
    constructor(now: int)
      ensures searchParams == SearchParams([], 52.520008, 13.404954, 10.0, now as real, now as real)
      ensures !showAllTags && searchText == "" && !showSearchResults
    {
      searchParams := SearchParams([], 52.520008, 13.404954, 10.0, now as real, now as real);
      showAllTags := false;
      searchText := "";
      showSearchResults := false;
    }

    /** The tags renderTags lays out. */
    function TagsShown(): (r: seq<string>)
      reads this
      ensures |r| >= |searchParams.tags| && r[..|searchParams.tags|] == searchParams.tags
    {
      TagsToShow(searchParams.tags, AllTags, showAllTags)
    }

    /** toggleTag: the tag leaves the selection when it was selected and joins it at the end otherwise. */
    method ToggleTag(tag: string)
      modifies this
      ensures searchParams == old(searchParams).(tags := Toggle(old(searchParams.tags), tag))
      ensures tag in searchParams.tags <==> tag !in old(searchParams.tags)
      ensures Filter(searchParams.tags, Except(tag)) == Filter(old(searchParams.tags), Except(tag))
      ensures showAllTags == old(showAllTags) && searchText == old(searchText)
      ensures showSearchResults == old(showSearchResults)
    {
      ToggleKeepsOthersInOrder(searchParams.tags, tag);
      searchParams := searchParams.(tags := Toggle(searchParams.tags, tag));
    }

    /** The "Mehr..." button. */
    method PressMore()
      requires OffersMore(searchParams.tags, AllTags, showAllTags)
      modifies this
      ensures showAllTags && OffersLess(showAllTags)
      ensures searchParams == old(searchParams) && searchText == old(searchText)
      ensures showSearchResults == old(showSearchResults)
    {
      showAllTags := true;
    }

    /** The "Weniger..." button. */
    method PressLess()
      requires OffersLess(showAllTags)
      modifies this
      ensures !showAllTags && !OffersLess(showAllTags)
      ensures searchParams == old(searchParams) && searchText == old(searchText)
      ensures showSearchResults == old(showSearchResults)
    {
      showAllTags := false;
    }

    /** handleTextSearch: results are shown exactly when the new text is not empty. */
    method HandleTextSearch(text: string)
      modifies this
      ensures searchText == text
      ensures showSearchResults <==> |text| > 0
      ensures searchParams == old(searchParams) && showAllTags == old(showAllTags)
    {
      searchText := text;
      if |text| > 0 {
        showSearchResults := true;
      } else {
        showSearchResults := false;
        return;
      }
    }

    /** handleParamChange: only the given key of the parameters changes. */
    method HandleParamChange(key: ParamKey, value: ParamValue)
      requires Fits(key, value)
      modifies this
      ensures Get(searchParams, key) == value
      ensures forall k :: k != key ==> Get(searchParams, k) == Get(old(searchParams), k)
      ensures showAllTags == old(showAllTags) && searchText == old(searchText)
      ensures showSearchResults == old(showSearchResults)
    {
      searchParams := Set(searchParams, key, value);
    }
  }
}
