/** The catalogue's sort menu: which option the `sort` query parameter
    selects, the label the button shows, and the parameter update a choice
    pushes to the router. Closing on an outside click is not modelled. */
module SortDropdown {
  import opened Models
  import opened Seqs
  import opened UrlParams

  /** An entry of `SORT_OPTIONS`; its `label` is `caption` here. */
  datatype SortOption = SortOption(caption: string, value: string)

  const SortOptions: seq<SortOption> := [
    SortOption("Newest", "newest"),
    SortOption("Price: Low to High", "price-asc"),
    SortOption("Price: High to Low", "price-desc")]

  /** `searchParams.get('sort') || 'newest'`. */
  function CurrentSort(ps: seq<Param>): (r: string)
    ensures Get(ps, "sort").Some? && Get(ps, "sort").value != "" ==> r == Get(ps, "sort").value
    ensures Get(ps, "sort").None? || Get(ps, "sort").value == "" ==> r == "newest"
  {
    var v := Get(ps, "sort");
    if v.Some? && v.value != "" then v.value else "newest"
  }

  function HasValue(value: string): SortOption -> bool {
    (o: SortOption) => o.value == value
  }

  /** `SORT_OPTIONS.find(opt => opt.value === currentSort)?.caption || 'Newest'`. */
  function CurrentLabel(ps: seq<Param>): (shown: string)
    ensures shown != ""
  {
    var i := FindIndex(SortOptions, HasValue(CurrentSort(ps)));
    if i == -1 || SortOptions[i].caption == "" then "Newest" else SortOptions[i].caption
  }

  /** The parameters `handleSort(value)` pushes: `sort` removed for the
      default order, set to the value otherwise. */
  function SortedParams(ps: seq<Param>, value: string): (r: seq<Param>)
    ensures value == "newest" ==> Get(r, "sort").None?
    ensures value != "newest" ==> exists j :: 0 <= j < |r| && r[j] == Param("sort", value)
  {
    if value == "newest" then Delete(ps, "sort") else Set(ps, "sort", value)
  }

  /** The option values are distinct, so finding option `k`'s value finds
      option `k`. */
  lemma {:induction false} FindsOption(k: nat)
    requires k < |SortOptions|
    ensures FindIndex(SortOptions, HasValue(SortOptions[k].value)) == k
  {
    var i := FindIndex(SortOptions, HasValue(SortOptions[k].value));
    assert HasValue(SortOptions[k].value)(SortOptions[k]);
    assert SortOptions[i].value == SortOptions[k].value;
  }

  /** Choosing an option makes it the current sort and its label the one
      the button shows. */
  lemma {:induction false} ChoiceIsShown(ps: seq<Param>, k: nat)
    requires k < |SortOptions|
    ensures CurrentSort(SortedParams(ps, SortOptions[k].value)) == SortOptions[k].value
    ensures CurrentLabel(SortedParams(ps, SortOptions[k].value)) == SortOptions[k].caption
  {
    var v := SortOptions[k].value;
    GetAfterDelete(ps, "sort", "sort");
    GetAfterSet(ps, "sort", v, "sort");
    FindsOption(k);
  }

  /** A `sort` value that names no option shows the default label. */
  lemma {:induction false} UnknownSortShowsNewest(ps: seq<Param>)
    requires forall k :: 0 <= k < |SortOptions| ==> SortOptions[k].value != CurrentSort(ps)
    ensures CurrentLabel(ps) == "Newest"
  {
  }

  /** Choosing a sort leaves every other query parameter as it was. */
  lemma {:induction false} ChoiceKeepsOtherParams(ps: seq<Param>, value: string, other: string)
    requires other != "sort"
    ensures Get(SortedParams(ps, value), other) == Get(ps, other)
    ensures Filter(SortedParams(ps, value), Named(other)) == Filter(ps, Named(other))
  {
    GetAfterDelete(ps, "sort", other);
    GetAfterSet(ps, "sort", value, other);
    FilterOthers(ps, "sort", other);
    SetNamedPairs(ps, "sort", value, other);
  }

  class Dropdown {
    var isOpen: bool
    /** The search parameters of the page's URL, which `router.push`
        replaces. */
    var params: seq<Param>

    constructor (ps: seq<Param>)
      ensures params == ps && !isOpen
    {
      params := ps;
      isOpen := false;
    }

    /** The menu button. */
    method Toggle()
      modifies this
      ensures isOpen == !old(isOpen) && params == old(params)
    {
      isOpen := !isOpen;
    }

    /** `handleSort`: edit a copy of the current parameters, push it, close
        the menu. */
    method HandleSort(value: string)
      modifies this
      ensures params == SortedParams(old(params), value) && !isOpen
    {
      var copy := new SearchParams(params);
      if value == "newest" {
        copy.DeleteParam("sort");
      } else {
        copy.SetParam("sort", value);
      }
      params := copy.pairs;
      isOpen := false;
    }
  }
}
