/**
 * The `/products` router: lookups and filters over what `get_products()`
 * produced. Each handler's broad `except` turns whatever is raised inside its
 * `try` into a 500 whose detail is the exception's text: the fetch's own
 * error, or "404: ..." for a lookup that finds nothing.
 */
module ProductsApi {
  import opened Wrappers
  import opened Text
  import opened Seqs
  import opened Catalog
  import opened Http

  /** `list_products`: succeeds exactly when `get_products()` does, with its list unchanged. */
  function ListProducts(f: Fetch): (r: Result<seq<Product>, HttpError>)
    ensures r.Success? <==> f.Success?
    ensures r.Success? ==> r.value == f.value
    ensures r.Failure? ==> r.error == HttpError(500, f.error)
  {
    match f
    case Failure(e) => Failure(HttpError(500, e))
    case Success(catalog) => Success(catalog)
  }

  function NotFoundAs500(detail: string): HttpError {
    HttpError(500, ExceptionText(HttpError(404, detail)))
  }

  /** `get_product_by_id`: the first catalog product with that id. */
  function GetProductById(f: Fetch, id: int): (r: Result<Product, HttpError>)
    ensures f.Failure? ==> r == Failure(HttpError(500, f.error))
    ensures f.Success? && r.Success? ==> r.value in f.value && r.value.id == id
    ensures f.Success? ==> (r.Failure? <==> forall j :: 0 <= j < |f.value| ==> f.value[j].id != id)
    ensures f.Success? && r.Failure? ==> r.error == NotFoundAs500("Product " + IntToString(id) + " not found")
  {
    match f
    case Failure(e) => Failure(HttpError(500, e))
    case Success(catalog) =>
      match FindById(catalog, id)
      case None => Failure(NotFoundAs500("Product " + IntToString(id) + " not found"))
      case Some(p) => Success(p)
  }

  /** No product listed before the one returned has the requested id. */
  lemma GetProductByIdIsFirst(catalog: seq<Product>, id: int, k: nat)
    requires k < |catalog| && catalog[k].id == id
    ensures GetProductById(Success(catalog), id).Success?
    ensures exists i :: 0 <= i <= k && catalog[i] == GetProductById(Success(catalog), id).value
                     && forall j :: 0 <= j < i ==> catalog[j].id != id
  {
    FindIsFirst(catalog, HasId(id), k);
  }

  function InCategory(name: string): Product -> bool {
    (p: Product) => Lower(p.category) == Lower(name)
  }

  /** `get_products_by_category`: case-insensitive equality on the category, in catalog order. */
  function ProductsByCategory(f: Fetch, name: string): Result<seq<Product>, HttpError> {
    match f
    case Failure(e) => Failure(HttpError(500, e))
    case Success(catalog) =>
      var found := Filter(catalog, InCategory(name));
      if found == [] then Failure(NotFoundAs500("No products found in category '" + name + "'"))
      else Success(found)
  }

  /**
   * The category result holds exactly the catalog products whose category
   * matches ignoring case, in catalog order, and fails only when there are none.
   */
  lemma ProductsByCategorySpec(catalog: seq<Product>, name: string)
    ensures var r := ProductsByCategory(Success(catalog), name);
      (r.Failure? <==> forall j :: 0 <= j < |catalog| ==> Lower(catalog[j].category) != Lower(name))
      && (r.Failure? ==> r.error == NotFoundAs500("No products found in category '" + name + "'"))
      && (r.Success? ==>
            (IsSubsequence(r.value, catalog)
             && (forall i :: 0 <= i < |r.value| ==> Lower(r.value[i].category) == Lower(name))
             && (forall j :: 0 <= j < |catalog| && Lower(catalog[j].category) == Lower(name) ==> catalog[j] in r.value)
             && r.value == Filter(catalog, InCategory(name))))
  {
    FilterKeepsExactly(catalog, InCategory(name));
    assert forall j :: 0 <= j < |catalog| ==> (InCategory(name)(catalog[j]) <==> Lower(catalog[j].category) == Lower(name));
  }

  function MatchesQuery(query: string): Product -> bool {
    (p: Product) => Contains(Lower(p.title), Lower(query)) || Contains(Lower(p.description), Lower(query))
  }

  /** `search_products`: the lowercased query as a substring of the lowercased title or description. */
  function SearchProducts(f: Fetch, query: string): Result<seq<Product>, HttpError> {
    match f
    case Failure(e) => Failure(HttpError(500, e))
    case Success(catalog) =>
      var matched := Filter(catalog, MatchesQuery(query));
      if matched == [] then Failure(NotFoundAs500("No products matched the query '" + query + "'"))
      else Success(matched)
  }

  /**
   * The search result holds exactly the catalog products that match, in
   * catalog order, and fails only when none does.
   */
  lemma SearchProductsSpec(catalog: seq<Product>, query: string)
    ensures var r := SearchProducts(Success(catalog), query);
      (r.Failure? <==> forall j :: 0 <= j < |catalog| ==> !MatchesQuery(query)(catalog[j]))
      && (r.Failure? ==> r.error == NotFoundAs500("No products matched the query '" + query + "'"))
      && (r.Success? ==>
            (IsSubsequence(r.value, catalog)
             && (forall i :: 0 <= i < |r.value| ==> MatchesQuery(query)(r.value[i]))
             && (forall j :: 0 <= j < |catalog| && MatchesQuery(query)(catalog[j]) ==> catalog[j] in r.value)
             && r.value == Filter(catalog, MatchesQuery(query))))
  {
    FilterKeepsExactly(catalog, MatchesQuery(query));
  }

  /** The empty query is a substring of every title, so it returns the whole (non-empty) catalog. */
  lemma SearchEmptyQuery(catalog: seq<Product>)
    requires catalog != []
    ensures SearchProducts(Success(catalog), "") == Success(catalog)
  {
    forall j | 0 <= j < |catalog| ensures MatchesQuery("")(catalog[j]) {
      assert PrefixAt(Lower(catalog[j].title), Lower(""), 0);
    }
    FilterAll(catalog, MatchesQuery(""));
  }

  /**
   * When `get_products()` raises, every endpoint answers 500 with the
   * exception's text, not with "404: ...".
   */
  lemma FetchFailureIs500(e: string, id: int, name: string, query: string)
    ensures ListProducts(Failure(e)) == Failure(HttpError(500, e))
    ensures GetProductById(Failure(e), id) == Failure(HttpError(500, e))
    ensures ProductsByCategory(Failure(e), name) == Failure(HttpError(500, e))
    ensures SearchProducts(Failure(e), query) == Failure(HttpError(500, e))
  {
  }

  /** A filter is empty exactly when nothing passes; it keeps order and every passing element. */
  lemma FilterKeepsExactly(s: seq<Product>, f: Product -> bool)
    ensures Filter(s, f) == [] <==> forall j :: 0 <= j < |s| ==> !f(s[j])
    ensures IsSubsequence(Filter(s, f), s)
    ensures forall j :: 0 <= j < |s| && f(s[j]) ==> s[j] in Filter(s, f)
  {
    FilterMembers(s, f);
    FilterIsSubsequence(s, f);
    if Filter(s, f) != [] {
      var x := Filter(s, f)[0];
      assert f(x) && x in s;
    }
  }
}
