/**
 * The product catalog as the Fake Store API delivers it. Prices are held in
 * integer cents.
 */
module Catalog {
  import opened Wrappers
  import opened Text

  datatype Product = Product(
    id: int,
    title: string,
    price: int,
    description: string,
    category: string,
    image: string)

  /**
   * What one `await get_products()` produced: the product list, or the text
   * (`str(e)`) of the exception it raised.
   */
  type Fetch = Result<seq<Product>, string>

  /** `str(p['id'])`: the string key the cart uses for a product. */
  function IdKey(p: Product): string { IntToString(p.id) }

  /** The index of the first product satisfying `f`: Python's `next((p for p in products if f(p)), None)`. */
  function FirstMatch(products: seq<Product>, f: Product -> bool): (r: Option<nat>)
    ensures r.Some? ==> r.value < |products| && f(products[r.value])
    ensures r.Some? ==> forall j :: 0 <= j < r.value ==> !f(products[j])
    ensures r.None? <==> forall j :: 0 <= j < |products| ==> !f(products[j])
  {
    if products == [] then None
    else if f(products[0]) then Some(0)
    else match FirstMatch(products[1..], f)
      case None => None
      case Some(k) => Some(k + 1)
  }

  function Find(products: seq<Product>, f: Product -> bool): Option<Product> {
    match FirstMatch(products, f)
    case None => None
    case Some(k) => Some(products[k])
  }

  function HasKey(key: string): Product -> bool { (p: Product) => IdKey(p) == key }

  function HasId(id: int): Product -> bool { (p: Product) => p.id == id }

  /** The first product whose id renders as `key` (the cart's lookup). */
  function FindByKey(products: seq<Product>, key: string): (r: Option<Product>)
    ensures r.Some? ==> r.value in products && IdKey(r.value) == key
  {
    Find(products, HasKey(key))
  }

  /** The key lookup fails exactly when no product's id renders as `key`. */
  lemma FindByKeyNone(products: seq<Product>, key: string)
    ensures FindByKey(products, key).None? <==> forall j :: 0 <= j < |products| ==> IdKey(products[j]) != key
  {
    assert forall j :: 0 <= j < |products| ==> (HasKey(key)(products[j]) <==> IdKey(products[j]) == key);
  }

  /** The first product with id `id` (the products API's lookup). */
  function FindById(products: seq<Product>, id: int): (r: Option<Product>)
    ensures r.Some? ==> r.value in products && r.value.id == id
    ensures r.None? <==> forall j :: 0 <= j < |products| ==> products[j].id != id
  {
    Find(products, HasId(id))
  }

  /** `Find` returns the product at the earliest matching position. */
  lemma FindIsFirst(products: seq<Product>, f: Product -> bool, k: nat)
    requires k < |products| && f(products[k])
    ensures Find(products, f).Some?
    ensures exists i :: 0 <= i <= k && products[i] == Find(products, f).value
                     && forall j :: 0 <= j < i ==> !f(products[j])
  {
    var i := FirstMatch(products, f).value;
    assert products[i] == Find(products, f).value;
  }

  /** Decimal rendering is injective, so the cart's string lookup agrees with the integer lookup. */
  lemma NatToStringInjective(a: nat, b: nat)
    requires NatToString(a) == NatToString(b)
    ensures a == b
    decreases a
  {
    var sa := NatToString(a);
    var sb := NatToString(b);
    // a one-digit rendering differs in length from a longer one
    if a >= 10 && b >= 10 {
      var pa := NatToString(a / 10);
      var pb := NatToString(b / 10);
      assert sa == pa + [DigitChar(a % 10)];
      assert sb == pb + [DigitChar(b % 10)];
      assert sa[..|sa| - 1] == pa && sb[..|sb| - 1] == pb;
      NatToStringInjective(a / 10, b / 10);
    }
  }

  lemma IntToStringSign(i: int)
    ensures |IntToString(i)| > 0 && (IntToString(i)[0] == '-' <==> i < 0)
  {
    if i >= 0 { assert IsDigit(NatToString(i)[0]); }
  }

  lemma IntToStringInjective(a: int, b: int)
    requires IntToString(a) == IntToString(b)
    ensures a == b
  {
    // a negative number renders with a leading '-', a non-negative one with a digit
    IntToStringSign(a);
    IntToStringSign(b);
    if a < 0 && b < 0 {
      assert IntToString(a)[1..] == NatToString(-a);
      assert IntToString(b)[1..] == NatToString(-b);
      NatToStringInjective(-a, -b);
    } else if a >= 0 && b >= 0 {
      NatToStringInjective(a, b);

    }
  }

  /** Looking a product up by its rendered id finds the same product as looking it up by id. */
  lemma FindByKeyOfId(products: seq<Product>, id: int)
    ensures FindByKey(products, IntToString(id)) == FindById(products, id)
    decreases |products|
  {
    if products != [] {
      if products[0].id == id {
      } else {
        if IdKey(products[0]) == IntToString(id) {
          IntToStringInjective(products[0].id, id);
        }
        FindByKeyOfId(products[1..], id);
      }
    }
  }
}
