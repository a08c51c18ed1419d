/**
 * The chatbot's intent engine: an ordered cascade of substring rules over the
 * lowercased message, and the extraction of product ids from it.
 *
 * Two regular expressions are not interpreted here: the multi-id phrase
 * pattern (`products?\s+(\d+(?:\s*,?\s*(?:and\s+)?\d+)*)`, whose `findall`
 * groups are an input) and the product-id test of the `product_by_id` rule.
 * The digit runs found inside those groups, and the standalone-number
 * fallback `\b(\d+)\b`, are modelled character by character.
 */
module ChatbotIntent {
  import opened Text
  import opened Seqs

  datatype Intent =
    | Greeting
    | AddMultipleToCart
    | AddToCart
    | AddAndCheckout
    | Checkout
    | CartQuery
    | ProductById
    | ShophubInfo
    | ProductSearch
    | Unknown

  /** The label the service returns for an intent. */
  function Label(i: Intent): string {
    match i
    case Greeting => "greeting"
    case AddMultipleToCart => "add_multiple_to_cart"
    case AddToCart => "add_to_cart"
    case AddAndCheckout => "add_and_checkout"
    case Checkout => "checkout"
    case CartQuery => "cart_query"
    case ProductById => "product_by_id"
    case ShophubInfo => "shophub_info"
    case ProductSearch => "product_search"
    case Unknown => "unknown"
  }

  /** The regular expressions left uninterpreted: the groups `re.findall(pattern1, ·)` returns, and the product-id test. */
  datatype Patterns = Patterns(pattern1: string -> seq<string>, mentionsProductId: string -> bool)

  // ---------------------------------------------------------------- digit runs

  predicate IsRun(r: string) { r != [] && forall k :: 0 <= k < |r| ==> IsDigit(r[k]) }

  /** The end of the run of digits starting at `i`. */
  function RunEnd(s: string, i: nat): (j: nat)
    requires i <= |s|
    ensures i <= j <= |s|
    ensures forall k :: i <= k < j ==> IsDigit(s[k])
    ensures j == |s| || !IsDigit(s[j])
    decreases |s| - i
  {
    if i < |s| && IsDigit(s[i]) then RunEnd(s, i + 1) else i
  }

  /** `re.findall(r'\d+', s[i..])`: the maximal runs of digits, left to right. */
  function DigitRunsFrom(s: string, i: nat): (r: seq<string>)
    requires i <= |s|
    ensures forall k :: 0 <= k < |r| ==> IsRun(r[k])
    decreases |s| - i
  {
    if i == |s| then []
    else if !IsDigit(s[i]) then DigitRunsFrom(s, i + 1)
    else
      var j := RunEnd(s, i);
      [s[i..j]] + DigitRunsFrom(s, j)
  }

  function DigitRuns(s: string): (r: seq<string>)
    ensures forall k :: 0 <= k < |r| ==> IsRun(r[k])
  {
    DigitRunsFrom(s, 0)
  }

  /** No word character just before position `i`: a `\b` ahead of a digit there. */
  predicate NonWordBefore(s: string, i: nat)
    requires i <= |s|
  {
    i == 0 || !IsWordChar(s[i - 1])
  }

  /** No word character at position `j`: a `\b` behind a digit ending there. */
  predicate NonWordAt(s: string, j: nat)
    requires j <= |s|
  {
    j == |s| || !IsWordChar(s[j])
  }

  /**
   * `re.findall(r'\b(\d+)\b', s[i..])`: the maximal digit runs with a
   * non-word character (or an end of the string) on both sides. A run glued
   * to a letter or underscore has no boundary inside it, so it yields nothing.
   */
  function StandaloneRunsFrom(s: string, i: nat): (r: seq<string>)
    requires i <= |s|
    ensures forall k :: 0 <= k < |r| ==> IsRun(r[k])
    decreases |s| - i
  {
    if i == |s| then []
    else if !IsDigit(s[i]) then StandaloneRunsFrom(s, i + 1)
    else
      var j := RunEnd(s, i);
      (if NonWordBefore(s, i) && NonWordAt(s, j) then [s[i..j]] else []) + StandaloneRunsFrom(s, j)
  }

  function StandaloneRuns(s: string): (r: seq<string>)
    ensures forall k :: 0 <= k < |r| ==> IsRun(r[k])
  {
    StandaloneRunsFrom(s, 0)
  }

  /** The numbers found inside each phrase match, in order. */
  function RunsOfMatches(ms: seq<string>): (r: seq<string>)
    ensures forall k :: 0 <= k < |r| ==> IsRun(r[k])
  {
    if ms == [] then [] else RunsOfMatches(ms[..|ms| - 1]) + DigitRuns(ms[|ms| - 1])
  }

  /** `product_ids` before deduplication: the phrase matches' numbers, or else every standalone number. */
  function RawIds(p: Patterns, message: string): (r: seq<string>)
    ensures forall k :: 0 <= k < |r| ==> IsRun(r[k])
  {
    var ms := p.pattern1(Lower(message));
    if ms != [] then RunsOfMatches(ms) else StandaloneRuns(message)
  }

  /** `_extract_product_ids`. */
  function ExtractIds(p: Patterns, message: string): seq<string> {
    Dedup(RawIds(p, message))
  }

  /**
   * The ids are distinct digit strings; every one is among the raw matches and
   * every raw match appears, in order of first occurrence. With no phrase
   * match, the raw matches are the standalone numbers of the message.
   */
  lemma ExtractIdsSpec(p: Patterns, message: string)
    ensures var ids := ExtractIds(p, message);
      var raw := RawIds(p, message);
      Distinct(ids)
      && (forall i :: 0 <= i < |ids| ==> ids[i] in raw && IsRun(ids[i]))
      && (forall i :: 0 <= i < |raw| ==> raw[i] in ids)
      && (forall i, j :: 0 <= i < j < |ids| ==> FirstIndex(raw, ids[i]) < FirstIndex(raw, ids[j]))
      && (p.pattern1(Lower(message)) == [] ==> raw == StandaloneRuns(message))
  {
    var ids := ExtractIds(p, message);
    var raw := RawIds(p, message);
    forall i | 0 <= i < |ids| ensures IsRun(ids[i]) {
      var k := FirstIndex(raw, ids[i]);
    }
    forall i, j | 0 <= i < j < |ids| ensures FirstIndex(raw, ids[i]) < FirstIndex(raw, ids[j]) {
      DedupFirstOccurrenceOrder(raw, i, j);
    }
  }

  lemma RunsOfMatchesSnoc(ms: seq<string>, m: string)
    ensures RunsOfMatches(ms + [m]) == RunsOfMatches(ms) + DigitRuns(m)
  {
    assert (ms + [m])[..|ms|] == ms;
  }

  /** The two loops of `_extract_product_ids`: collect the numbers, then keep each one's first occurrence. */
  method ExtractProductIds(p: Patterns, message: string) returns (ids: seq<string>)
    ensures ids == ExtractIds(p, message)
  {
    var matches := p.pattern1(Lower(message));
    var productIds: seq<string>;
    if matches != [] {
      productIds := CollectRuns(matches);
    } else {
      productIds := StandaloneRuns(message);
    }
    ids := DedupIds(productIds);
  }

  /** The loop over the phrase matches, extending the id list by each match's digit runs. */
  method CollectRuns(matches: seq<string>) returns (productIds: seq<string>)
    ensures productIds == RunsOfMatches(matches)
  {
    productIds := [];
    var k := 0;
    while k < |matches|
      invariant 0 <= k <= |matches|
      invariant productIds == RunsOfMatches(matches[..k])
    {
      RunsOfMatchesSnoc(matches[..k], matches[k]);
      assert matches[..k + 1] == matches[..k] + [matches[k]];
      productIds := productIds + DigitRuns(matches[k]);
      k := k + 1;
    }
    assert matches[..k] == matches;
  }

  /** One step of the `seen`-set loop: the set mirrors the prefix, and the next id joins only when unseen. */
  lemma DedupStep(s: seq<string>, k: nat, seen: set<string>)
    requires k < |s| && forall x :: x in seen <==> x in s[..k]
    ensures Dedup(s[..k + 1]) == if s[k] in seen then Dedup(s[..k]) else Dedup(s[..k]) + [s[k]]
    ensures forall x :: x in seen + {s[k]} <==> x in s[..k + 1]
    ensures s[k] in seen ==> forall x :: x in seen <==> x in s[..k + 1]
  {
    assert s[..k + 1] == s[..k] + [s[k]];
    DedupSnoc(s[..k], s[k]);
  }

  /** The `seen`-set loop keeping the first occurrence of each id. */
  method DedupIds(productIds: seq<string>) returns (ids: seq<string>)
    ensures ids == Dedup(productIds)
  {
    var seen: set<string> := {};
    ids := [];
    var k := 0;
    while k < |productIds|
      invariant 0 <= k <= |productIds|
      invariant ids == Dedup(productIds[..k])
      invariant forall x :: x in seen <==> x in productIds[..k]
    {
      var pid := productIds[k];
      DedupStep(productIds, k, seen);
      if pid !in seen {
        seen := seen + {pid};
        ids := ids + [pid];
      }
      k := k + 1;
    }
    assert productIds[..k] == productIds;
  }

  // ---------------------------------------------------------------- the cascade

  const Greetings: seq<string> := ["hello", "hi", "hey", "good morning", "good afternoon", "good evening", "how are you"]
  const AddPhrases: seq<string> := ["add product", "add item", "add this", "add to cart", "put in cart"]
  const AddWords: seq<string> := ["add", "put", "product"]
  const CheckoutPhrases: seq<string> := ["checkout", "buy now", "purchase", "place order", "pay now"]
  const CartPhrases: seq<string> := ["my cart", "show cart", "view cart", "cart contents", "what's in my cart", "what's in my"]
  const InfoWords: seq<string> := ["shipping", "return", "refund", "policy", "delivery", "warranty", "support", "help"]
  const ProductKeywords: seq<string> := ["product", "item", "buy", "shop", "find", "show", "looking for", "need",
                                         "want", "price", "cost", "cheap", "expensive", "available"]

  /** The rule that selects intent `i`, taken on its own; `Unknown` is the default and always fires. */
  predicate Fires(p: Patterns, m: string, i: Intent) {
    match i
    case Greeting => ContainsAny(m, Greetings)
    case AddMultipleToCart => (Contains(m, "add") || Contains(m, "put")) && |ExtractIds(p, m)| > 1
    case AddToCart => ContainsAny(m, AddPhrases)
    case AddAndCheckout => Contains(m, "checkout") && ContainsAny(m, AddWords)
    case Checkout => ContainsAny(m, CheckoutPhrases)
    case CartQuery => ContainsAny(m, CartPhrases) || StripPy(m) == "cart"
    case ProductById => p.mentionsProductId(m)
    case ShophubInfo => ContainsAny(m, InfoWords)
    case ProductSearch => ContainsAny(m, ProductKeywords)
    case Unknown => true
  }

  /** The position of an intent's rule in the cascade. */
  function Rank(i: Intent): nat {
    match i
    case Greeting => 0
    case AddMultipleToCart => 1
    case AddToCart => 2
    case AddAndCheckout => 3
    case Checkout => 4
    case CartQuery => 5
    case ProductById => 6
    case ShophubInfo => 7
    case ProductSearch => 8
    case Unknown => 9
  }

  /** `_detect_intent` on an already lowercased message. */
  function DetectIntent(p: Patterns, m: string): Intent {
    if ContainsAny(m, Greetings) then Greeting
    else if (Contains(m, "add") || Contains(m, "put")) && |ExtractIds(p, m)| > 1 then AddMultipleToCart
    else if ContainsAny(m, AddPhrases) then AddToCart
    else if Contains(m, "checkout") && ContainsAny(m, AddWords) then AddAndCheckout
    else if ContainsAny(m, CheckoutPhrases) then Checkout
    else if ContainsAny(m, CartPhrases) || StripPy(m) == "cart" then CartQuery
    else if p.mentionsProductId(m) then ProductById
    else if ContainsAny(m, InfoWords) then ShophubInfo
    else if ContainsAny(m, ProductKeywords) then ProductSearch
    else Unknown
  }

  /** The detected intent's rule fires and no earlier rule does: the first match wins. */
  lemma DetectIntentIsFirstMatch(p: Patterns, m: string)
    ensures Fires(p, m, DetectIntent(p, m))
    ensures forall i :: Rank(i) < Rank(DetectIntent(p, m)) ==> !Fires(p, m, i)
  {
    var r := DetectIntent(p, m);
    forall i | Rank(i) < Rank(r) ensures !Fires(p, m, i) {
      match i
      case Greeting =>
      case AddMultipleToCart =>
      case AddToCart =>
      case AddAndCheckout =>
      case Checkout =>
      case CartQuery =>
      case ProductById =>
      case ShophubInfo =>
      case ProductSearch =>
      case Unknown =>
    }
  }

  /** Any intent whose rule fires with no earlier rule firing is the detected one. */
  lemma FirstMatchIsDetected(p: Patterns, m: string, i: Intent)
    requires Fires(p, m, i)
    requires forall j :: Rank(j) < Rank(i) ==> !Fires(p, m, j)
    ensures DetectIntent(p, m) == i
  {
    DetectIntentIsFirstMatch(p, m);
    var r := DetectIntent(p, m);
    assert Rank(r) == Rank(i);
  }

  /** The greeting test is plain substring search, so "shipping" (which contains "hi") reads as a greeting. */
  lemma ShippingIsGreeting(p: Patterns, m: string)
    requires Contains(m, "shipping")
    ensures DetectIntent(p, m) == Greeting
  {
    assert PrefixAt("shipping", "hi", 1);
    ContainsFromOf("shipping", "hi", 0, 1);
    ContainsTransitive(m, "shipping", "hi");
    assert Greetings[1] == "hi";
  }

  /** Several ids with "add" or "put" select the multi-add even when a single-add phrase is present. */
  lemma AddMultipleIff(p: Patterns, m: string)
    ensures DetectIntent(p, m) == AddMultipleToCart
      <==> !ContainsAny(m, Greetings) && (Contains(m, "add") || Contains(m, "put")) && |ExtractIds(p, m)| > 1
  {
  }

  /** `any(keyword in intent for keyword in ["add", "cart", "checkout", "product"])`. */
  predicate WantsIds(i: Intent) {
    ContainsAny(Label(i), ["add", "cart", "checkout", "product"])
  }

  /** A string lacking one of `p`'s characters does not contain `p`. */
  lemma MissingCharNotContained(s: string, p: string, k: nat)
    requires k < |p| && forall i :: 0 <= i < |s| ==> s[i] != p[k]
    ensures !Contains(s, p)
  {
    if Contains(s, p) {
      var w := ContainsFromWitness(s, p, 0);
      PrefixAtIff(s, p, w);
    }
  }

  /** Ids are extracted for every intent except greeting, store info and unknown. */
  lemma WantsIdsExactly(i: Intent)
    ensures WantsIds(i) <==> i != Greeting && i != ShophubInfo && i != Unknown
  {
    if i == Greeting || i == ShophubInfo || i == Unknown {
      NoIdsFor(i);
    } else {
      IdsFor(i);
    }
  }

  lemma IdsFor(i: Intent)
    requires i != Greeting && i != ShophubInfo && i != Unknown
    ensures WantsIds(i)
  {
    var kws := ["add", "cart", "checkout", "product"];
    match i
    case AddMultipleToCart => KeywordAtStart(Label(i), kws, 0);
    case AddToCart => KeywordAtStart(Label(i), kws, 0);
    case AddAndCheckout => KeywordAtStart(Label(i), kws, 0);
    case Checkout => KeywordAtStart(Label(i), kws, 2);
    case CartQuery => KeywordAtStart(Label(i), kws, 1);
    case ProductById => KeywordAtStart(Label(i), kws, 3);
    case ProductSearch => KeywordAtStart(Label(i), kws, 3);
  }

  lemma KeywordAtStart(s: string, kws: seq<string>, k: nat)
    requires k < |kws| && |kws[k]| <= |s| && s[..|kws[k]|] == kws[k]
    ensures ContainsAny(s, kws)
  {
    PrefixAtIff(s, kws[k], 0);
    assert Contains(s, kws[k]);
  }

  lemma NoIdsFor(i: Intent)
    requires i == Greeting || i == ShophubInfo || i == Unknown
    ensures !WantsIds(i)
  {
    NoKeyword(Label(i), ["add", "cart", "checkout", "product"]);
  }

  /** A label with no 'a', no 'c', and no 'p' or no 'r' contains none of the keywords. */
  lemma NoKeyword(s: string, kws: seq<string>)
    requires kws == ["add", "cart", "checkout", "product"]
    requires forall i :: 0 <= i < |s| ==> s[i] != 'a' && s[i] != 'c'
    requires (forall i :: 0 <= i < |s| ==> s[i] != 'p') || (forall i :: 0 <= i < |s| ==> s[i] != 'r')
    ensures !ContainsAny(s, kws)
  {
    MissingCharNotContained(s, kws[0], 0);
    MissingCharNotContained(s, kws[1], 0);
    MissingCharNotContained(s, kws[2], 0);
    if forall i :: 0 <= i < |s| ==> s[i] != 'p' {
      MissingCharNotContained(s, kws[3], 0);
    } else {
      MissingCharNotContained(s, kws[3], 1);
    }
  }
}
