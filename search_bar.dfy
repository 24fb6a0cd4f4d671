/** The storefront search box: the query it starts with, the `q` parameter
    each search pushes to the router, and the clear button. The debounce and
    pending-indicator timers are not modelled. */
module SearchBar {
  import opened Models
  import opened Seqs
  import opened UrlParams

  /** `searchParams.get('q') || ''`. */
  function InitialQuery(ps: seq<Param>): (r: string)
    ensures Get(ps, "q").Some? ==> r == Get(ps, "q").value
    ensures Get(ps, "q").None? ==> r == ""
  {
    match Get(ps, "q")
    case Some(v) => v
    case None => ""
  }

  /** The parameters `updateSearch(value)` pushes: `q` set to a non-empty
      value, removed for the empty one. */
  function SearchedParams(ps: seq<Param>, value: string): (r: seq<Param>)
    ensures value == "" ==> Get(r, "q").None?
    ensures value != "" ==> exists j :: 0 <= j < |r| && r[j] == Param("q", value)
  {
    if value != "" then Set(ps, "q", value) else Delete(ps, "q")
  }

  /** A page loaded with the pushed parameters starts with the query that
      was searched for; every other parameter is as before. */
  lemma {:induction false} SearchRoundTrip(ps: seq<Param>, value: string, other: string)
    ensures InitialQuery(SearchedParams(ps, value)) == value
    ensures value == "" ==> Get(SearchedParams(ps, value), "q").None?
    ensures other != "q" ==> Get(SearchedParams(ps, value), other) == Get(ps, other)
    ensures other != "q" ==> Filter(SearchedParams(ps, value), Named(other)) == Filter(ps, Named(other))
  {
    GetAfterSet(ps, "q", value, other);
    GetAfterDelete(ps, "q", other);
    SetNamedPairs(ps, "q", value, other);
    if other != "q" {
      FilterOthers(ps, "q", other);
    }
  }

  class SearchBox {
    var query: string
    var isPending: bool
    /** The search parameters of the page's URL, which `router.push`
        replaces. */
    var params: seq<Param>

    constructor (ps: seq<Param>)
      ensures query == InitialQuery(ps) && params == ps && !isPending
    {
      query := InitialQuery(ps);
      params := ps;
      isPending := false;
    }

    /** `updateSearch`: edit a copy of the current parameters and push it. */
    method UpdateSearch(value: string)
      modifies this
      ensures params == SearchedParams(old(params), value)
      ensures isPending && query == old(query)
    {
      isPending := true;
      var copy := new SearchParams(params);
      if value != "" {
        copy.SetParam("q", value);
      } else {
        copy.DeleteParam("q");
      }
      params := copy.pairs;
    }

    /** Typing: the box shows the new text at once; the search it schedules
        is pushed by a timer, which is not modelled. */
    method HandleChange(value: string)
      modifies this
      ensures query == value && params == old(params) && isPending == old(isPending)
    {
      query := value;
    }

    /** Enter: search for what the box holds now. */
    method HandleEnter()
      modifies this
      ensures params == SearchedParams(old(params), old(query))
      ensures query == old(query) && isPending
    {
      UpdateSearch(query);
    }

    /** `clearSearch`: empty the box and remove `q`. */
    method ClearSearch()
      modifies this
      ensures query == "" && params == Delete(old(params), "q") && isPending
    {
      query := "";
      UpdateSearch("");
    }
  }
}
