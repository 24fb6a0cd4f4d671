/** `URLSearchParams` as the URL Standard (section 6.2) defines the three
    operations the storefront uses: `get` reads the first pair with a name,
    `set` overwrites the first pair with a name and drops the others (or
    appends a pair), `delete` drops every pair with a name. The list of
    pairs is modelled; serialising it into a query string is not. */
module UrlParams {
  import opened Models
  import opened Seqs

  datatype Param = Param(name: string, value: string)

  function Named(name: string): Param -> bool {
    (p: Param) => p.name == name
  }

  function NotNamed(name: string): Param -> bool {
    (p: Param) => p.name != name
  }

  /** `params.get(name)`: the value of the first pair with that name. */
  function Get(ps: seq<Param>, name: string): (r: Option<string>)
    ensures r.Some? <==> exists i :: 0 <= i < |ps| && ps[i].name == name
  {
    var i := FindIndex(ps, Named(name));
    if i == -1 then None else Some(ps[i].value)
  }

  /** `params.delete(name)`. */
  function Delete(ps: seq<Param>, name: string): (r: seq<Param>)
    ensures |r| <= |ps|
    ensures forall j :: 0 <= j < |r| ==> r[j].name != name
  {
    Filter(ps, NotNamed(name))
  }

  /** `params.set(name, value)`. */
  function Set(ps: seq<Param>, name: string, value: string): (r: seq<Param>)
    ensures exists j :: 0 <= j < |r| && r[j] == Param(name, value)
  {
    var i := FindIndex(ps, Named(name));
    if i == -1 then
      var r := ps + [Param(name, value)];
      assert r[|ps|] == Param(name, value);
      r
    else
      var r := ps[..i] + [Param(name, value)] + Delete(ps[i + 1..], name);
      assert r[i] == Param(name, value);
      r
  }

  /** `get` sees the first of the pairs that carry the name. */
  lemma {:induction false} GetIsFirstNamed(ps: seq<Param>, name: string)
    ensures Get(ps, name) == if Filter(ps, Named(name)) == [] then None else Some(Filter(ps, Named(name))[0].value)
  {
    if ps != [] && !Named(name)(ps[0]) {
      GetIsFirstNamed(ps[1..], name);
      var k := FindIndex(ps[1..], Named(name));
      assert FindIndex(ps, Named(name)) == if k == -1 then -1 else k + 1;
    }
  }

  /** The pairs with names other than `name`, in order, are all a `set` or
      `delete` of `name` leaves untouched. */
  lemma {:induction false} FilterOthers(ps: seq<Param>, name: string, other: string)
    requires other != name
    ensures Filter(Delete(ps, name), Named(other)) == Filter(ps, Named(other))
  {
    FilterFilter(ps, NotNamed(name), Named(other));
  }

  /** The pairs `set` leaves: one pair with the name, and the pairs with
      any other name as they were, in order. */
  lemma {:induction false} SetNamedPairs(ps: seq<Param>, name: string, value: string, other: string)
    ensures Filter(Set(ps, name, value), Named(name)) == [Param(name, value)]
    ensures other != name ==> Filter(Set(ps, name, value), Named(other)) == Filter(ps, Named(other))
  {
    if FindIndex(ps, Named(name)) == -1 {
      SetAppends(ps, name, value, other);
    } else {
      SetOverwrites(ps, name, value, other);
    }
  }

  lemma {:induction false} SetAppends(ps: seq<Param>, name: string, value: string, other: string)
    requires FindIndex(ps, Named(name)) == -1
    ensures Filter(Set(ps, name, value), Named(name)) == [Param(name, value)]
    ensures other != name ==> Filter(Set(ps, name, value), Named(other)) == Filter(ps, Named(other))
  {
    var pair := [Param(name, value)];
    assert Filter(pair, Named(name)) == pair;
    FilterNone(ps, Named(name));
    FilterConcat(ps, pair, Named(name));
    if other != name {
      FilterNone(pair, Named(other));
      FilterConcat(ps, pair, Named(other));
    }
  }

  lemma {:induction false} SetOverwrites(ps: seq<Param>, name: string, value: string, other: string)
    requires FindIndex(ps, Named(name)) != -1
    ensures Filter(Set(ps, name, value), Named(name)) == [Param(name, value)]
    ensures other != name ==> Filter(Set(ps, name, value), Named(other)) == Filter(ps, Named(other))
  {
    var i := FindIndex(ps, Named(name));
    SetOverwritesName(ps, i, name, value);
    if other != name {
      SetOverwritesOthers(ps, i, name, value, other);
    }
  }

  lemma {:induction false} SetOverwritesName(ps: seq<Param>, i: nat, name: string, value: string)
    requires i < |ps| && i == FindIndex(ps, Named(name))
    ensures Filter(ps[..i] + [Param(name, value)] + Delete(ps[i + 1..], name), Named(name))
         == [Param(name, value)]
  {
    var pair := [Param(name, value)];
    var before, rest := ps[..i], Delete(ps[i + 1..], name);
    var f := Named(name);
    assert Filter(pair, f) == pair;
    FilterNone(before, f);
    FilterNone(rest, f);
    FilterConcat(before + pair, rest, f);
    FilterConcat(before, pair, f);
  }

  lemma {:induction false} SetOverwritesOthers(ps: seq<Param>, i: nat, name: string, value: string, other: string)
    requires i < |ps| && ps[i].name == name && other != name
    ensures Filter(ps[..i] + [Param(name, value)] + Delete(ps[i + 1..], name), Named(other))
         == Filter(ps, Named(other))
  {
    var before, after := ps[..i], ps[i + 1..];
    var f := Named(other);
    assert ps == before + [ps[i]] + after;
    FilterSplice(before, [Param(name, value)], Delete(after, name), f);
    FilterSplice(before, [ps[i]], after, f);
    assert !f(Param(name, value)) && !f(ps[i]);
    FilterNone([Param(name, value)], f);
    FilterNone([ps[i]], f);
    FilterOthers(after, name, other);
  }

  /** After `set`, `get` answers the value set; every other name answers as
      before. */
  lemma {:induction false} GetAfterSet(ps: seq<Param>, name: string, value: string, other: string)
    ensures Get(Set(ps, name, value), name) == Some(value)
    ensures other != name ==> Get(Set(ps, name, value), other) == Get(ps, other)
  {
    SetNamedPairs(ps, name, value, other);
    GetIsFirstNamed(Set(ps, name, value), name);
    GetIsFirstNamed(Set(ps, name, value), other);
    GetIsFirstNamed(ps, other);
  }

  /** After `delete`, no pair carries the name and every other name answers
      as before. */
  lemma {:induction false} GetAfterDelete(ps: seq<Param>, name: string, other: string)
    ensures Get(Delete(ps, name), name) == None
    ensures other != name ==> Get(Delete(ps, name), other) == Get(ps, other)
  {
    var d := Delete(ps, name);
    FilterNone(d, Named(name));
    GetIsFirstNamed(d, name);
    if other != name {
      FilterOthers(ps, name, other);
      GetIsFirstNamed(d, other);
      GetIsFirstNamed(ps, other);
    }
  }

  /** `new URLSearchParams(searchParams.toString())`: a mutable copy of the
      current page's pairs. */
  class SearchParams {
    var pairs: seq<Param>

    constructor (ps: seq<Param>)
      ensures pairs == ps
    {
      pairs := ps;
    }

    function GetParam(name: string): (r: Option<string>)
      reads this
    {
      Get(pairs, name)
    }

    method SetParam(name: string, value: string)
      modifies this
      ensures pairs == Set(old(pairs), name, value)
    {
      pairs := Set(pairs, name, value);
    }

    method DeleteParam(name: string)
      modifies this
      ensures pairs == Delete(old(pairs), name)
    {
      pairs := Delete(pairs, name);
    }
  }
}
