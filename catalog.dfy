/** The `filteredProducts` derivation: category and case-insensitive name search. */
module Catalog {
  import opened PosTypes
  import opened Text

  /** The category key that matches every product. */
  const AllCategories: string := "all"

  predicate MatchesCat(p: Product, selectedCat: string)
  {
    selectedCat == AllCategories || p.cat == selectedCat
  }

  predicate MatchesSearch(p: Product, query: string)
  {
    Includes(Lower(p.name), Lower(query))
  }

  predicate Visible(p: Product, selectedCat: string, query: string)
  {
    MatchesCat(p, selectedCat) && MatchesSearch(p, query)
  }

  /**
   * The `filter` over the catalog: the result holds exactly the catalog's products that match
   * both the category and the search.
   */
  function FilterProducts(catalog: seq<Product>, selectedCat: string, query: string): (r: seq<Product>)
    ensures |r| <= |catalog|
    ensures forall p :: p in r ==> p in catalog && Visible(p, selectedCat, query)
    ensures forall p :: p in catalog && Visible(p, selectedCat, query) ==> p in r
  {
    if catalog == [] then []
    else
      (if Visible(catalog[0], selectedCat, query) then [catalog[0]] else [])
      + FilterProducts(catalog[1..], selectedCat, query)
  }

  /** `a` is `b` with some elements deleted, the rest in their original order. */
  predicate SubsequenceOf<T(==)>(a: seq<T>, b: seq<T>)
    decreases |b|
  {
    a == [] || (b != [] && ((a[0] == b[0] && SubsequenceOf(a[1..], b[1..])) || SubsequenceOf(a, b[1..])))
  }

  /** The filter keeps catalog order. */
  lemma {:induction false} FilterIsSubsequence(catalog: seq<Product>, selectedCat: string, query: string)
    ensures SubsequenceOf(FilterProducts(catalog, selectedCat, query), catalog)
    decreases |catalog|
  {
    if catalog != [] {
      FilterIsSubsequence(catalog[1..], selectedCat, query);
      var r := FilterProducts(catalog, selectedCat, query);
      if Visible(catalog[0], selectedCat, query) {
        assert r[0] == catalog[0] && r[1..] == FilterProducts(catalog[1..], selectedCat, query);
      } else {
        assert r == FilterProducts(catalog[1..], selectedCat, query);
      }
    }
  }

  /** A filter every product passes returns the catalog itself. */
  lemma {:induction false} FilterAllVisible(catalog: seq<Product>, selectedCat: string, query: string)
    requires forall p :: p in catalog ==> Visible(p, selectedCat, query)
    ensures FilterProducts(catalog, selectedCat, query) == catalog
    decreases |catalog|
  {
    if catalog != [] {
      FilterAllVisible(catalog[1..], selectedCat, query);
    }
  }

  /** Category `'all'` with an empty search shows the whole catalog. */
  lemma FilterShowsAll(catalog: seq<Product>)
    ensures FilterProducts(catalog, AllCategories, "") == catalog
  {
    forall p | p in catalog
      ensures Visible(p, AllCategories, "")
    {
      IncludesEmpty(Lower(p.name));
    }
    FilterAllVisible(catalog, AllCategories, "");
  }

  /** The search ignores ASCII case in the query. */
  lemma FilterIgnoresQueryCase(catalog: seq<Product>, selectedCat: string, query: string)
    ensures FilterProducts(catalog, selectedCat, Lower(query)) == FilterProducts(catalog, selectedCat, query)
  {
    LowerIdempotent(query);
  }

  /** Filtering a catalog in two pieces filters each piece. */
  lemma {:induction false} FilterConcat(a: seq<Product>, b: seq<Product>, selectedCat: string, query: string)
    ensures FilterProducts(a + b, selectedCat, query)
            == FilterProducts(a, selectedCat, query) + FilterProducts(b, selectedCat, query)
    decreases |a|
  {
    if a == [] {
      assert a + b == b;
    } else {
      assert (a + b)[0] == a[0] && (a + b)[1..] == a[1..] + b;
      FilterConcat(a[1..], b, selectedCat, query);
    }
  }

  /** A filter no product passes returns nothing. */
  lemma {:induction false} FilterNoneVisible(catalog: seq<Product>, selectedCat: string, query: string)
    requires forall p :: p in catalog ==> !Visible(p, selectedCat, query)
    ensures FilterProducts(catalog, selectedCat, query) == []
    decreases |catalog|
  {
    if catalog != [] {
      FilterNoneVisible(catalog[1..], selectedCat, query);
    }
  }

  /** A product whose name lacks, in both cases, some letter of the lower-cased query is hidden. */
  lemma SearchMisses(p: Product, query: string, j: int)
    requires 0 <= j < |query|
    requires var c := Lower(query)[j];
      'a' <= c <= 'z' && c !in p.name && (c as int - 32) as char !in p.name
    ensures !MatchesSearch(p, query)
  {
    var c := Lower(query)[j];
    LowerMissing(p.name, c);
    MissingCharNotIncluded(Lower(p.name), Lower(query), j);
  }

  /** When every product of a passes and none of b does, filtering a + b gives a. */
  lemma FilterKeepsPrefix(a: seq<Product>, b: seq<Product>, selectedCat: string, query: string)
    requires forall p :: p in a ==> Visible(p, selectedCat, query)
    requires forall p :: p in b ==> !Visible(p, selectedCat, query)
    ensures FilterProducts(a + b, selectedCat, query) == a
  {
    FilterAllVisible(a, selectedCat, query);
    FilterNoneVisible(b, selectedCat, query);
    FilterConcat(a, b, selectedCat, query);
  }

  /** When x alone passes the filter, filtering before + [x] + after gives [x]. */
  lemma FilterSingleMatch(before: seq<Product>, x: Product, after: seq<Product>, selectedCat: string, query: string)
    requires forall p :: p in before ==> !Visible(p, selectedCat, query)
    requires Visible(x, selectedCat, query)
    requires forall p :: p in after ==> !Visible(p, selectedCat, query)
    ensures FilterProducts(before + [x] + after, selectedCat, query) == [x]
  {
    FilterNoneVisible(before, selectedCat, query);
    FilterKeepsPrefix([x], after, selectedCat, query);
    FilterConcat(before, [x] + after, selectedCat, query);
    assert before + [x] + after == before + ([x] + after);
  }
}
