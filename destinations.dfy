/**
 * The destination browser of `src/pages/Destinations.tsx`: the search-and-facets filter,
 * the reset of the filters and the star rating.
 */
module Destinations {
  import opened Text
  import Seqs

  /** The fields of a destination the filter and the rating read. */
  datatype Destination = Destination(id: int, name: string, country: string, continent: string,
                                     climate: string, kind: string, rating: real)

  /** The search term and the three facet selections. */
  datatype Filters = Filters(searchTerm: string, continent: string, climate: string, kind: string)

  const All := "All"

  /** The first render, and what `Reset Filters` restores. */
  const DefaultFilters := Filters("", All, All, All)

  // ------------------------------------------------------------ the filter

  /** `matchesSearch`. */
  predicate MatchesSearch(d: Destination, term: string)
  {
    Includes(LowerStr(d.name), LowerStr(term)) || Includes(LowerStr(d.country), LowerStr(term))
  }

  /** One facet: "All" admits everything, any other choice only an exact match. */
  predicate FacetAdmits(choice: string, value: string)
  {
    choice == All || value == choice
  }

  predicate Passes(d: Destination, f: Filters)
  {
    MatchesSearch(d, f.searchTerm) && FacetAdmits(f.continent, d.continent)
    && FacetAdmits(f.climate, d.climate) && FacetAdmits(f.kind, d.kind)
  }

  /** `filteredDestinations`. */
  function Filtered(ds: seq<Destination>, f: Filters): (r: seq<Destination>)
    ensures |r| <= |ds|
    ensures forall i :: 0 <= i < |r| ==> r[i] in ds && Passes(r[i], f)
    ensures forall i :: 0 <= i < |ds| && Passes(ds[i], f) ==> ds[i] in r
  {
    Seqs.Filter(ds, (d: Destination) => Passes(d, f))
  }

  /** A facet admits a value exactly when it is "All" or names that value. */
  lemma FacetAdmitsIff(choice: string, value: string)
    ensures FacetAdmits(All, value)
    ensures choice != All ==> (FacetAdmits(choice, value) <==> value == choice)
  {
  }

  /** The search matches exactly when the term occurs, ignoring case, at some position of the name or the country. */
  lemma MatchesSearchIff(d: Destination, term: string)
    ensures MatchesSearch(d, term) <==>
      (exists i :: OccursAt(LowerStr(d.name), LowerStr(term), i))
      || (exists i :: OccursAt(LowerStr(d.country), LowerStr(term), i))
  {
    IncludesIff(LowerStr(d.name), LowerStr(term));
    IncludesIff(LowerStr(d.country), LowerStr(term));
  }

  /** With an empty search and every facet at "All", every destination is shown, in order. */
  lemma DefaultsShowAll(ds: seq<Destination>)
    ensures Filtered(ds, DefaultFilters) == ds
  {
    forall i | 0 <= i < |ds| ensures Passes(ds[i], DefaultFilters) {
      IncludesEmpty(LowerStr(ds[i].name));
    }
    Seqs.FilterKeepsAll(ds, (d: Destination) => Passes(d, DefaultFilters));
  }

  /** The shown destinations keep their order. */
  lemma FilteredKeepsOrder(a: seq<Destination>, b: seq<Destination>, f: Filters)
    ensures Filtered(a + b, f) == Filtered(a, f) + Filtered(b, f)
  {
    Seqs.FilterConcat(a, b, (d: Destination) => Passes(d, f));
  }

  /** Choosing a continent only narrows the result of "All". */
  lemma ContinentNarrows(ds: seq<Destination>, f: Filters, c: string)
    ensures forall i :: 0 <= i < |Filtered(ds, f.(continent := c))| ==>
      Filtered(ds, f.(continent := c))[i] in Filtered(ds, f.(continent := All))
  {
    var narrow, wide := Filtered(ds, f.(continent := c)), Filtered(ds, f.(continent := All));
    forall i | 0 <= i < |narrow| ensures narrow[i] in wide {
      var k :| 0 <= k < |ds| && ds[k] == narrow[i];
      assert Passes(ds[k], f.(continent := All));
    }
  }

  // ------------------------------------------------------------ star rating

  /** A rendered star: the `full-i` spans, then possibly the `half` span. */
  datatype Star = Full(i: nat) | Half

  /** `Math.floor(rating)`, and the loop bound it gives (a negative floor runs no iteration). */
  function FullStars(rating: real): (n: nat)
    ensures rating >= 0.0 ==> n as real <= rating < n as real + 1.0
    ensures rating < 0.0 ==> n == 0
  {
    if rating.Floor < 0 then 0 else rating.Floor
  }

  /** `hasHalfStar`: the part above the floor is at least one half. */
  predicate HasHalfStar(rating: real)
  {
    rating - rating.Floor as real >= 0.5
  }

  /** The number of stars is the rating rounded half up, for every rating of a destination (non-negative). */
  lemma {:induction false} StarCountRounds(rating: real)
    requires rating >= 0.0
    ensures FullStars(rating) + (if HasHalfStar(rating) then 1 else 0) == (rating + 0.5).Floor
  {
    var f := rating.Floor;
    if HasHalfStar(rating) {
      assert (f + 1) as real <= rating + 0.5 < (f + 2) as real;
    } else {
      assert f as real <= rating + 0.5 < (f + 1) as real;
    }
  }

  /** A rating of at most five never shows more than five stars. */
  lemma StarCountBounded(rating: real)
    requires 0.0 <= rating <= 5.0
    ensures FullStars(rating) + (if HasHalfStar(rating) then 1 else 0) <= 5
  {
    StarCountRounds(rating);
  }

  /** `renderStarRating`: push the full stars one by one, then the half star. */
  method RenderStarRating(rating: real) returns (stars: seq<Star>)
    ensures |stars| == FullStars(rating) + (if HasHalfStar(rating) then 1 else 0)
    ensures forall i :: 0 <= i < FullStars(rating) ==> stars[i] == Full(i)
    ensures HasHalfStar(rating) ==> stars[|stars| - 1] == Half
  {
    var fullStars := rating.Floor;
    var hasHalfStar := rating - fullStars as real >= 0.5;
    stars := [];
    var i := 0;
    while i < fullStars
      invariant 0 <= i && (fullStars >= 0 ==> i <= fullStars)
      invariant i == |stars|
      invariant fullStars < 0 ==> i == 0
      invariant forall j :: 0 <= j < i ==> stars[j] == Full(j)
    {
      stars := stars + [Full(i)];
      i := i + 1;
    }
    if hasHalfStar {
      stars := stars + [Half];
    }
  }

  // ------------------------------------------------------------ the page

  class DestinationsPage {
    var searchTerm: string
    var selectedContinent: string
    var selectedClimate: string
    var selectedType: string

    function Current(): Filters
      reads this
    {
      Filters(searchTerm, selectedContinent, selectedClimate, selectedType)
    }

    constructor ()
      ensures Current() == DefaultFilters
    {
      searchTerm, selectedContinent, selectedClimate, selectedType := "", All, All, All;
    }

    method SetSearch(term: string)
      modifies this
      ensures Current() == old(Current()).(searchTerm := term)
    {
      searchTerm := term;
    }

    method SelectContinent(c: string)
      modifies this
      ensures Current() == old(Current()).(continent := c)
    {
      selectedContinent := c;
    }

    method SelectClimate(c: string)
      modifies this
      ensures Current() == old(Current()).(climate := c)
    {
      selectedClimate := c;
    }

    method SelectType(t: string)
      modifies this
      ensures Current() == old(Current()).(kind := t)
    {
      selectedType := t;
    }

    /** `Reset Filters`: afterwards every destination is shown again. */
    method ResetFilters(ds: seq<Destination>)
      modifies this
      ensures Current() == DefaultFilters
      ensures Filtered(ds, Current()) == ds
    {
      searchTerm := "";
      selectedContinent := All;
      selectedClimate := All;
      selectedType := All;
      DefaultsShowAll(ds);
    }
  }
}
