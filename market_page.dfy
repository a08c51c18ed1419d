/**
 * The market page: the category choices offered in the navigation bar, the
 * products shown for a chosen category and search text, and the count line.
 */
module MarketPage {
  import opened Text
  import opened Catalog
  import Seqs

  /** The category value that applies no category filter. */
  const AllCategories := "all"
  const ShowingLead := "Showing "
  const CountJoin := " of "
  const CountTail := " products"

  function CategoryList(products: seq<Product>): seq<string> {
    seq(|products|, i requires 0 <= i < |products| => products[i].category)
  }

  /** `new Set(products.map(p => p.category))` in iteration order, which is insertion order. */
  function DistinctCategories(products: seq<Product>): (r: seq<string>)
    ensures Seqs.Distinct(r)
    ensures forall i :: 0 <= i < |products| ==> products[i].category in r
    ensures forall i :: 0 <= i < |r| ==> r[i] in CategoryList(products)
  {
    var names := CategoryList(products);
    assert forall i :: 0 <= i < |products| ==> names[i] == products[i].category;
    Seqs.Dedup(names)
  }

  /** `['all', ...new Set(products.map(p => p.category))]`. */
  function Categories(products: seq<Product>): seq<string> {
    [AllCategories] + DistinctCategories(products)
  }

  /** The distinct categories appear in the order of their first product. */
  lemma CategoriesFirstSeenOrder(products: seq<Product>, i: nat, j: nat)
    requires i < j < |DistinctCategories(products)|
    ensures Seqs.FirstIndex(CategoryList(products), DistinctCategories(products)[i])
            < Seqs.FirstIndex(CategoryList(products), DistinctCategories(products)[j])
  {
    Seqs.DedupFirstOccurrenceOrder(CategoryList(products), i, j);
  }

  /** 'all' is only prepended, not removed from the set: a product in a category named 'all' lists it twice. */
  lemma AllCanRepeat(products: seq<Product>, k: nat)
    requires k < |products| && products[k].category == AllCategories
    ensures AllCategories in Categories(products)[1..]
  {
  }

  predicate InCategory(p: Product, category: string) { category == AllCategories || p.category == category }

  /** The search test: the lower-cased, untrimmed query inside the lower-cased title or description. */
  predicate MatchesQuery(p: Product, query: string) {
    Contains(Lower(p.title), Lower(query)) || Contains(Lower(p.description), Lower(query))
  }

  /** A product is shown when it is in the chosen category and, for a non-blank query, matches it. */
  predicate Shown(p: Product, category: string, query: string) {
    InCategory(p, category) && (TrimJs(query) == [] || MatchesQuery(p, query))
  }

  function ShownIn(category: string, query: string): Product -> bool {
    p => Shown(p, category, query)
  }

  /** The filter effect: the two filters applied one after the other are the one combined test. */
  method FilterProducts(products: seq<Product>, category: string, query: string) returns (filtered: seq<Product>)
    ensures filtered == Seqs.Filter(products, ShownIn(category, query))
  {
    var byCategory := (p: Product) => p.category == category;
    var bySearch := (p: Product) => MatchesQuery(p, query);
    var shown := ShownIn(category, query);
    filtered := products;
    if category != AllCategories {
      filtered := Seqs.Filter(filtered, byCategory);
    }
    if TrimJs(query) != [] {
      filtered := Seqs.Filter(filtered, bySearch);
    }
    if category != AllCategories && TrimJs(query) != [] {
      forall i | 0 <= i < |products|
        ensures shown(products[i]) == (byCategory(products[i]) && bySearch(products[i])) {
      }
      Seqs.FilterFilter(products, byCategory, bySearch, shown);
    } else if category != AllCategories {
      forall i | 0 <= i < |products| ensures byCategory(products[i]) == shown(products[i]) {
      }
      Seqs.FilterAgree(products, byCategory, shown);
    } else if TrimJs(query) != [] {
      forall i | 0 <= i < |products| ensures bySearch(products[i]) == shown(products[i]) {
      }
      Seqs.FilterAgree(products, bySearch, shown);
    } else {
      Seqs.FilterAll(products, shown);
    }
  }

  /** The shown products keep the order of the catalog. */
  lemma FilteredIsSubsequence(products: seq<Product>, category: string, query: string)
    ensures Seqs.IsSubsequence(Seqs.Filter(products, ShownIn(category, query)), products)
  {
    Seqs.FilterIsSubsequence(products, ShownIn(category, query));
  }

  /** A product is shown exactly when it passes both tests. */
  lemma FilteredMembership(products: seq<Product>, category: string, query: string, i: nat)
    requires i < |products|
    ensures products[i] in Seqs.Filter(products, ShownIn(category, query)) <==> Shown(products[i], category, query)
  {
    Seqs.FilterMembers(products, ShownIn(category, query));
  }

  /** With 'all' and a blank query every product is shown, in order. */
  lemma AllAndBlankShowsEverything(products: seq<Product>, query: string)
    requires AllJsSpace(query)
    ensures Seqs.Filter(products, ShownIn(AllCategories, query)) == products
  {
    Seqs.FilterAll(products, ShownIn(AllCategories, query));
  }

  /** The category test is exact: a category that differs only in case shows nothing of it. */
  lemma CategoryCaseSensitive(p: Product, query: string)
    requires p.category == "Electronics"
    ensures !Shown(p, "electronics", query)
  {
    assert p.category[0] != "electronics"[0];
  }

  /** `Showing {filtered.length} of {products.length} products`. */
  function CountLine(shown: nat, total: nat): (r: string)
    ensures |r| > |ShowingLead| + |CountJoin| + |CountTail|
    ensures r[..|ShowingLead|] == ShowingLead
    ensures r[|r| - |CountTail|..] == CountTail
  {
    ShowingLead + NatToString(shown) + CountJoin + NatToString(total) + CountTail
  }

  /** The count line never shows more products than the catalog has. */
  lemma ShownNeverExceedsTotal(products: seq<Product>, category: string, query: string)
    ensures |Seqs.Filter(products, ShownIn(category, query))| <= |products|
  {
  }
}
