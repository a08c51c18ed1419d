/**
 * The four product hooks. Each keeps its data, a loading flag and the last
 * error; each request is one atomic step whose outcome is an input.
 */
module UseProducts {
  import opened Wrappers
  import opened Text
  import opened ClientTypes
  import opened Catalog

  const ProductsFallback := "Failed to fetch products"
  const ProductFallback := "Failed to fetch product"
  const SearchFallback := "Failed to search products"

  /** What every hook holds: its data, the loading flag and the last error. */
  datatype HookState<T> = HookState(data: T, loading: bool, error: Option<string>)

  /**
   * One fetch: the fetched data replaces the old, or the old data stays and
   * the error becomes the detail or `fallback`; loading ends false either way.
   */
  function FetchSpec<T>(st: HookState<T>, outcome: Result<T, ApiError>, fallback: string): (r: HookState<T>)
    ensures !r.loading
    ensures outcome.Success? ==> r.data == outcome.value && r.error.None?
    ensures outcome.Failure? ==> r.data == st.data && r.error == Some(DetailOr(outcome.error, fallback))
  {
    match outcome
    case Success(v) => HookState(v, false, None)
    case Failure(err) => HookState(st.data, false, Some(DetailOr(err, fallback)))
  }

  /** A fetched product as the hook stores it. */
  function Fetched(outcome: Result<Product, ApiError>): (r: Result<Option<Product>, ApiError>)
    ensures outcome.Success? ==> r == Success(Some(outcome.value))
    ensures outcome.Failure? ==> r == Failure(outcome.error)
  {
    match outcome
    case Success(p) => Success(Some(p))
    case Failure(e) => Failure(e)
  }

  /** `useProduct`'s effect: only a truthy id is fetched; id 0 leaves the hook loading. */
  function ProductMountSpec(st: HookState<Option<Product>>, id: int, outcome: Result<Product, ApiError>)
    : (r: HookState<Option<Product>>)
    ensures id == 0 ==> r == st
    ensures id != 0 ==> !r.loading
    ensures id != 0 && outcome.Success? ==> r.data == Some(outcome.value)
  {
    if id == 0 then st
    else FetchSpec(st, Fetched(outcome), ProductFallback)
  }

  /** `useProductsByCategory`'s effect: only a non-empty category is fetched. */
  function CategoryMountSpec(st: HookState<seq<Product>>, category: string, outcome: Result<seq<Product>, ApiError>)
    : (r: HookState<seq<Product>>)
    ensures category == "" ==> r == st
    ensures category != "" ==> r == FetchSpec(st, outcome, ProductsFallback)
  {
    if category == "" then st else FetchSpec(st, outcome, ProductsFallback)
  }

  /** `search`: a blank query empties the results without a request; any other query is fetched. */
  function SearchSpec(st: HookState<seq<Product>>, query: string, outcome: Result<seq<Product>, ApiError>)
    : (r: HookState<seq<Product>>)
    ensures TrimJs(query) == [] ==> r == st.(data := [])
    ensures TrimJs(query) != [] ==> r == FetchSpec(st, outcome, SearchFallback)
  {
    if TrimJs(query) == [] then st.(data := []) else FetchSpec(st, outcome, SearchFallback)
  }

  function ClearResultsSpec(st: HookState<seq<Product>>): (r: HookState<seq<Product>>)
    ensures r.data == [] && r.error.None? && r.loading == st.loading
  {
    st.(data := [], error := None)
  }

  /** A blank query makes no request: the outcome has no influence and loading and error stay as they were. */
  lemma BlankSearchSendsNothing(st: HookState<seq<Product>>, query: string, o1: Result<seq<Product>, ApiError>,
                                o2: Result<seq<Product>, ApiError>)
    requires AllJsSpace(query)
    ensures SearchSpec(st, query, o1) == SearchSpec(st, query, o2)
    ensures SearchSpec(st, query, o1).loading == st.loading && SearchSpec(st, query, o1).error == st.error
  {
  }

  /** Within a hook, a failed refetch after a success keeps the data of the success. */
  lemma FailureKeepsLastData<T>(st: HookState<T>, v: T, err: ApiError, fallback: string)
    ensures FetchSpec(FetchSpec(st, Success(v), fallback), Failure(err), fallback).data == v
    ensures FetchSpec(FetchSpec(st, Success(v), fallback), Failure(err), fallback).error.Some?
  {
  }

  /** Fetching the same outcome twice is the same as fetching it once. */
  lemma FetchIdempotent<T>(st: HookState<T>, outcome: Result<T, ApiError>, fallback: string)
    ensures FetchSpec(FetchSpec(st, outcome, fallback), outcome, fallback) == FetchSpec(st, outcome, fallback)
  {
  }

  /** `useProducts`: all products, loading from the start, fetched on mount and on `refetch`. */
  class ProductsHook {
    var products: seq<Product>
    var loading: bool
    var error: Option<string>

    function Snapshot(): HookState<seq<Product>>
      reads this
    {
      HookState(products, loading, error)
    }

    constructor ()
      ensures Snapshot() == HookState([], true, None)
    {
      products := [];
      loading := true;
      error := None;
    }

    /** The mount effect and `refetch`. */
    method FetchProducts(outcome: Result<seq<Product>, ApiError>)
      modifies this
      ensures Snapshot() == FetchSpec(old(Snapshot()), outcome, ProductsFallback)
    {
      loading := true;
      error := None;
      match outcome {
        case Success(data) =>
          products := data;
        case Failure(err) =>
          error := Some(DetailOr(err, ProductsFallback));
      }
      loading := false;
    }
  }

  /** `useProduct(id)`: one product, loading from the start. */
  class ProductHook {
    var product: Option<Product>
    var loading: bool
    var error: Option<string>

    function Snapshot(): HookState<Option<Product>>
      reads this
    {
      HookState(product, loading, error)
    }

    constructor ()
      ensures Snapshot() == HookState(None, true, None)
    {
      product := None;
      loading := true;
      error := None;
    }

    /** `fetchProduct`, also returned as `refetch`. */
    method FetchProduct(outcome: Result<Product, ApiError>)
      modifies this
      ensures Snapshot() == FetchSpec(old(Snapshot()), Fetched(outcome), ProductFallback)
    {
      loading := true;
      error := None;
      match outcome {
        case Success(p) =>
          product := Some(p);
        case Failure(err) =>
          error := Some(DetailOr(err, ProductFallback));
      }
      loading := false;
    }

    /** The effect that runs when `id` is set or changes. */
    method Mount(id: int, outcome: Result<Product, ApiError>)
      modifies this
      ensures Snapshot() == ProductMountSpec(old(Snapshot()), id, outcome)
    {
      if id != 0 {
        FetchProduct(outcome);
      }
    }
  }

  /** `useProductsByCategory(category)`: the products of one category, loading from the start. */
  class CategoryHook {
    var products: seq<Product>
    var loading: bool
    var error: Option<string>

    function Snapshot(): HookState<seq<Product>>
      reads this
    {
      HookState(products, loading, error)
    }

    constructor ()
      ensures Snapshot() == HookState([], true, None)
    {
      products := [];
      loading := true;
      error := None;
    }

    /** `fetchProducts`, also returned as `refetch`. */
    method FetchProducts(outcome: Result<seq<Product>, ApiError>)
      modifies this
      ensures Snapshot() == FetchSpec(old(Snapshot()), outcome, ProductsFallback)
    {
      loading := true;
      error := None;
      match outcome {
        case Success(data) =>
          products := data;
        case Failure(err) =>
          error := Some(DetailOr(err, ProductsFallback));
      }
      loading := false;
    }

    /** The effect that runs when `category` is set or changes. */
    method Mount(category: string, outcome: Result<seq<Product>, ApiError>)
      modifies this
      ensures Snapshot() == CategoryMountSpec(old(Snapshot()), category, outcome)
    {
      if category != "" {
        FetchProducts(outcome);
      }
    }
  }

  /** `useProductSearch`: search results, idle until the first search. */
  class SearchHook {
    var results: seq<Product>
    var loading: bool
    var error: Option<string>

    function Snapshot(): HookState<seq<Product>>
      reads this
    {
      HookState(results, loading, error)
    }

    constructor ()
      ensures Snapshot() == HookState([], false, None)
    {
      results := [];
      loading := false;
      error := None;
    }

    /** `search(query)`; the outcome is the response's `results` list. */
    method Search(query: string, outcome: Result<seq<Product>, ApiError>)
      modifies this
      ensures Snapshot() == SearchSpec(old(Snapshot()), query, outcome)
    {
      if TrimJs(query) == [] {
        results := [];
        return;
      }
      loading := true;
      error := None;
      match outcome {
        case Success(data) =>
          results := data;
        case Failure(err) =>
          error := Some(DetailOr(err, SearchFallback));
      }
      loading := false;
    }

    method ClearResults()
      modifies this
      ensures Snapshot() == ClearResultsSpec(old(Snapshot()))
    {
      results := [];
      error := None;
    }
  }
}
