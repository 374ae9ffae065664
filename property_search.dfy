/** The tenant's property search (src/components/TenantDashboard/PropertySearch.js):
    the load of all properties, the three search criteria, and the filter
    that `handleSearch` applies to the loaded list. */
module PropertySearch {
  import opened Js
  import opened Api

  datatype Criterion = ByName | ByState | ByCountry

  /** `searchParams`: the text typed into each search box. */
  datatype Criteria = Criteria(propertyName: string, state: string, country: string)

  const NoCriteria := Criteria("", "", "")

  /** `!criterion || field?.toLowerCase().includes(criterion.toLowerCase())`:
      an empty criterion matches everything, a missing field matches only
      the empty criterion, and otherwise the match is a case-insensitive
      substring test. */
  predicate Matches(criterion: string, field: Option<string>) {
    !Truthy(criterion) || (field.Some? && Contains(Lower(field.value), Lower(criterion)))
  }

  /** The filter's callback: all three criteria match. */
  predicate Keep(c: Criteria, p: Listing) {
    Matches(c.propertyName, p.propertyName) && Matches(c.state, p.state) && Matches(c.country, p.country)
  }

  /** `Array.prototype.filter` with a callback `keep`: the elements it
      accepts, in their original order. */
  function FilterBy<T>(xs: seq<T>, keep: T -> bool): (r: seq<T>)
    ensures |r| <= |xs|
  {
    if xs == [] then []
    else
      var rest := FilterBy(xs[1..], keep);
      if keep(xs[0]) then [xs[0]] + rest else rest
  }

  /** `properties.filter(...)` with the search's callback. */
  function Filter(ps: seq<Listing>, c: Criteria): (r: seq<Listing>)
    ensures |r| <= |ps|
  {
    FilterBy(ps, p => Keep(c, p))
  }

  lemma {:induction false} FilterByMembers<T>(xs: seq<T>, keep: T -> bool)
    ensures forall x :: x in FilterBy(xs, keep) <==> x in xs && keep(x)
  {
    if xs != [] {
      FilterByMembers(xs[1..], keep);
      assert xs == [xs[0]] + xs[1..];
    }
  }

  /** The search keeps exactly the loaded listings that all three criteria
      match. */
  lemma FilterMembers(ps: seq<Listing>, c: Criteria)
    ensures forall p :: p in Filter(ps, c) <==> p in ps && Keep(c, p)
  {
    FilterByMembers(ps, p => Keep(c, p));
  }

  /** `r` is `s` with some elements dropped and the rest kept in order. */
  ghost predicate Subsequence<T>(r: seq<T>, s: seq<T>)
    decreases |s|
  {
    if r == [] then true
    else if s == [] then false
    else (r[0] == s[0] && Subsequence(r[1..], s[1..])) || Subsequence(r, s[1..])
  }

  lemma {:induction false} FilterBySubsequence<T>(xs: seq<T>, keep: T -> bool)
    ensures Subsequence(FilterBy(xs, keep), xs)
  {
    if xs != [] {
      FilterBySubsequence(xs[1..], keep);
      var rest := FilterBy(xs[1..], keep);
      if keep(xs[0]) {
        assert ([xs[0]] + rest)[1..] == rest;
      } else if rest != [] {
        assert Subsequence(rest, xs[1..]);
      }
    }
  }

  /** The search result is an order-preserving subsequence of the loaded
      list. */
  lemma FilterIsSubsequence(ps: seq<Listing>, c: Criteria)
    ensures Subsequence(Filter(ps, c), ps)
  {
    FilterBySubsequence(ps, p => Keep(c, p));
  }

  lemma {:induction false} FilterByAppend<T>(a: seq<T>, b: seq<T>, keep: T -> bool)
    ensures FilterBy(a + b, keep) == FilterBy(a, keep) + FilterBy(b, keep)
  {
    if a == [] {
      assert a + b == b;
    } else {
      var ab := a + b;
      assert ab[0] == a[0] && ab[1..] == a[1..] + b;
      FilterByAppend(a[1..], b, keep);
      var x, p, q := a[0], FilterBy(a[1..], keep), FilterBy(b, keep);
      if keep(x) {
        AppendAssoc([x], p, q);
      }
    }
  }

  lemma AppendAssoc<T>(x: seq<T>, p: seq<T>, q: seq<T>)
    ensures x + (p + q) == (x + p) + q
  {
  }

  /** Filtering a concatenation filters each part: the relative order of
      the kept listings is the order of the loaded list. */
  lemma FilterAppend(a: seq<Listing>, b: seq<Listing>, c: Criteria)
    ensures Filter(a + b, c) == Filter(a, c) + Filter(b, c)
  {
    FilterByAppend(a, b, p => Keep(c, p));
  }

  lemma {:induction false} FilterByIdempotent<T>(xs: seq<T>, keep: T -> bool)
    ensures FilterBy(FilterBy(xs, keep), keep) == FilterBy(xs, keep)
  {
    if xs != [] {
      FilterByIdempotent(xs[1..], keep);
      var rest := FilterBy(xs[1..], keep);
      if keep(xs[0]) {
        assert ([xs[0]] + rest)[1..] == rest;
      }
    }
  }

  /** Filtering the result again with the same criteria changes nothing. */
  lemma FilterIdempotent(ps: seq<Listing>, c: Criteria)
    ensures Filter(Filter(ps, c), c) == Filter(ps, c)
  {
    FilterByIdempotent(ps, p => Keep(c, p));
  }

  lemma {:induction false} FilterByAll<T>(xs: seq<T>, keep: T -> bool)
    requires forall x :: keep(x)
    ensures FilterBy(xs, keep) == xs
  {
    if xs != [] {
      FilterByAll(xs[1..], keep);
      assert [xs[0]] + xs[1..] == xs;
    }
  }

  /** With every criterion empty, the search returns the whole list. */
  lemma EmptyCriteriaKeepAll(ps: seq<Listing>, c: Criteria)
    requires !Truthy(c.propertyName) && !Truthy(c.state) && !Truthy(c.country)
    ensures Filter(ps, c) == ps
  {
    FilterByAll(ps, p => Keep(c, p));
  }

  /** The case of the typed criterion does not matter. */
  lemma MatchIgnoresCriterionCase(criterion: string, field: Option<string>)
    ensures Matches(Upper(criterion), field) == Matches(criterion, field)
    ensures Matches(Lower(criterion), field) == Matches(criterion, field)
  {
    LowerOfUpper(criterion);
    LowerIdempotent(criterion);
    assert |Upper(criterion)| == |criterion| == |Lower(criterion)|;
  }

  /** Nor does the case of the stored field. */
  lemma MatchIgnoresFieldCase(criterion: string, field: string)
    ensures Matches(criterion, Some(Upper(field))) == Matches(criterion, Some(field))
  {
    LowerOfUpper(field);
  }

  /** A criterion that occurs in the field, in any letter case, matches. */
  lemma SubstringMatches(criterion: string, pre: string, post: string)
    ensures Matches(criterion, Some(pre + criterion + post))
  {
    var f := pre + criterion + post;
    var lf, lc := Lower(f), Lower(criterion);
    assert lf[|pre|..|pre| + |criterion|] == lc;
    assert OccursAt(lf, lc, |pre|);
  }

  /** A search for state "TX" over listings in "TX", "tx" and "CA" keeps
      the first two and drops the third. */
  lemma StateSearchExample(tx: Listing, lowerTx: Listing, ca: Listing)
    requires tx.state == Some("TX") && lowerTx.state == Some("tx") && ca.state == Some("CA")
    ensures Filter([tx, lowerTx, ca], Criteria("", "TX", "")) == [tx, lowerTx]
  {
    var c := Criteria("", "TX", "");
    assert Lower("TX") == "tx" && Lower("tx") == "tx" && Lower("CA") == "ca";
    assert OccursAt("tx", "tx", 0);
    assert !Contains("ca", "tx") by {
      forall i | 0 <= i <= 0 ensures !OccursAt("ca", "tx", i) {
        assert "ca"[0..2][0] == 'c';
      }
    }
    assert Keep(c, tx) && Keep(c, lowerTx) && !Keep(c, ca);
    assert [tx, lowerTx, ca][1..] == [lowerTx, ca];
    assert [lowerTx, ca][1..] == [ca];
    assert [ca][1..] == [];
    assert Filter([ca], c) == [];
    assert Filter([lowerTx, ca], c) == [lowerTx];
  }

  /** The component's state: the loaded list, the shown list, the criteria,
      and the load's progress and error ("" for none). */
  class PropertySearchView {
    var properties: seq<Listing>
    var filteredProperties: seq<Listing>
    var searchParams: Criteria
    var loading: bool
    var error: string

    constructor ()
      ensures properties == [] && filteredProperties == [] && searchParams == NoCriteria
      ensures loading && error == ""
    {
      properties := [];
      filteredProperties := [];
      searchParams := NoCriteria;
      loading := true;
      error := "";
    }

    /** The load on mount: a body whose `$values` is an array fills both
        lists with it; any other body leaves them and records an error, as
        does a failed request. */
    method Load(reply: Outcome<Body<Listing>>)
      modifies this
      ensures !loading && searchParams == old(searchParams)
      ensures (reply.Ok? && reply.body.Record? && reply.body.values.Some?) ==>
                properties == reply.body.values.value && filteredProperties == properties && error == ""
      ensures reply.Ok? && !(reply.body.Record? && reply.body.values.Some?) ==>
                properties == old(properties) && filteredProperties == old(filteredProperties)
                && error == "Error: Received unexpected data structure from the API."
      ensures !reply.Ok? ==>
                properties == old(properties) && filteredProperties == old(filteredProperties)
                && error == "Failed to load properties."
    {
      loading := true;
      error := "";
      if reply.Ok? {
        var data := reply.body;
        if data.Record? && data.values.Some? {
          properties := data.values.value;
          filteredProperties := data.values.value;
        } else {
          error := "Error: Received unexpected data structure from the API.";
        }
      } else {
        error := "Failed to load properties.";
      }
      loading := false;
    }

    /** `handleInputChange`: only the named criterion changes. */
    method HandleInputChange(name: Criterion, value: string)
      modifies this
      ensures searchParams == match name
                              case ByName => old(searchParams).(propertyName := value)
                              case ByState => old(searchParams).(state := value)
                              case ByCountry => old(searchParams).(country := value)
      ensures properties == old(properties) && filteredProperties == old(filteredProperties)
      ensures loading == old(loading) && error == old(error)
    {
      match name
      case ByName => searchParams := searchParams.(propertyName := value);
      case ByState => searchParams := searchParams.(state := value);
      case ByCountry => searchParams := searchParams.(country := value);
    }

    /** `handleSearch`: the shown list becomes the loaded list filtered by
        the current criteria. It never reads the previous result, so a
        repeated search shows the same list, and the loaded list is kept. */
    method HandleSearch()
      modifies this
      ensures filteredProperties == Filter(properties, searchParams)
      ensures properties == old(properties) && searchParams == old(searchParams)
      ensures loading == old(loading) && error == old(error)
    {
      filteredProperties := Filter(properties, searchParams);
    }
  }
}
