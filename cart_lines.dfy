/**
 * One session's cart: Python's insertion-ordered `{product_id: quantity}`
 * dict, as a sequence of lines with distinct keys. Assigning to a present
 * key keeps its position, assigning to a new key appends, and `del` removes
 * the line and closes the gap.
 */
module CartLines {
  import opened Wrappers
  import opened Seqs

  datatype Line = Line(productId: string, quantity: int)

  type Lines = seq<Line>

  function Keys(ls: Lines): (r: seq<string>)
    ensures |r| == |ls|
    ensures forall i :: 0 <= i < |ls| ==> r[i] == ls[i].productId
  {
    seq(|ls|, i requires 0 <= i < |ls| => ls[i].productId)
  }

  lemma {:induction false} KeysSnoc(ls: Lines)
    requires ls != []
    ensures Keys(ls) == Keys(ls[..|ls| - 1]) + [ls[|ls| - 1].productId]
  {
    var p := ls[..|ls| - 1];
    var rhs := Keys(p) + [ls[|ls| - 1].productId];
    assert |rhs| == |ls|;
    forall i | 0 <= i < |ls|
      ensures Keys(ls)[i] == rhs[i]
    {
      if i < |p| {
        assert rhs[i] == Keys(p)[i] == p[i].productId;
      }
    }
  }

  /** Dict keys are unique. */
  predicate WellFormed(ls: Lines) { Distinct(Keys(ls)) }

  lemma WellFormedPrefix(ls: Lines)
    requires WellFormed(ls) && ls != []
    ensures WellFormed(ls[..|ls| - 1])
  {
    var p := ls[..|ls| - 1];
    assert forall a :: 0 <= a < |p| ==> Keys(p)[a] == Keys(ls)[a];
  }

  /** `d.get(key)`. */
  function Lookup(ls: Lines, key: string): Option<int> {
    if ls == [] then None
    else if ls[0].productId == key then Some(ls[0].quantity)
    else Lookup(ls[1..], key)
  }

  /** `sum(d.values())`. */
  function TotalQuantity(ls: Lines): int {
    if ls == [] then 0 else ls[0].quantity + TotalQuantity(ls[1..])
  }

  function NotKey(key: string): string -> bool { (k: string) => k != key }

  /** `key in d` holds exactly when `key` is one of the keys. */
  lemma {:induction false} LookupIffKey(ls: Lines, key: string)
    ensures Lookup(ls, key).Some? <==> key in Keys(ls)
  {
    if ls != [] {
      LookupIffKey(ls[1..], key);
      assert Keys(ls) == [ls[0].productId] + Keys(ls[1..]);
    }
  }

  /**
   * `d[key] = q`: afterwards `key` maps to `q`, every other key keeps its
   * value, a present key keeps its position and a new one goes last.
   */
  function Put(ls: Lines, key: string, q: int): (r: Lines)
    ensures Lookup(r, key) == Some(q)
    ensures TotalQuantity(r) == TotalQuantity(ls) - Lookup(ls, key).GetOr(0) + q
  {
    if ls == [] then [Line(key, q)]
    else if ls[0].productId == key then [Line(key, q)] + ls[1..]
    else [ls[0]] + Put(ls[1..], key, q)
  }

  /** `d[key] = q` leaves every other key's value alone. */
  lemma {:induction false} PutOthers(ls: Lines, key: string, q: int, k: string)
    requires k != key
    ensures Lookup(Put(ls, key, q), k) == Lookup(ls, k)
  {
    if ls != [] && ls[0].productId != key {
      PutOthers(ls[1..], key, q, k);
    }
  }

  /** A present key keeps its position; a new key goes last. */
  lemma {:induction false} PutKeys(ls: Lines, key: string, q: int)
    ensures Keys(Put(ls, key, q)) == if Lookup(ls, key).Some? then Keys(ls) else Keys(ls) + [key]
  {
    if ls != [] && ls[0].productId != key {
      PutKeys(ls[1..], key, q);
      assert Keys(Put(ls, key, q)) == [ls[0].productId] + Keys(Put(ls[1..], key, q));
      assert Keys(ls) == [ls[0].productId] + Keys(ls[1..]);
    }
  }

  lemma PutWellFormed(ls: Lines, key: string, q: int)
    requires WellFormed(ls)
    ensures WellFormed(Put(ls, key, q))
  {
    PutKeys(ls, key, q);
    LookupIffKey(ls, key);
  }

  /**
   * `del d[key]`: afterwards `key` is absent, every other key keeps its
   * value and the remaining keys keep their order.
   */
  function Delete(ls: Lines, key: string): (r: Lines)
    ensures forall k :: k != key ==> Lookup(r, k) == Lookup(ls, k)
    ensures TotalQuantity(r) == TotalQuantity(ls) - Lookup(ls, key).GetOr(0)
    ensures |r| <= |ls|
  {
    if ls == [] then []
    else if ls[0].productId == key then ls[1..]
    else [ls[0]] + Delete(ls[1..], key)
  }

  /** In a well-formed cart the deleted key is gone and the keys stay distinct. */
  lemma {:induction false} DeleteWellFormed(ls: Lines, key: string)
    requires WellFormed(ls)
    ensures Lookup(Delete(ls, key), key).None?
    ensures WellFormed(Delete(ls, key))
  {
    if ls != [] {
      var rest := ls[1..];
      assert Keys(ls) == [ls[0].productId] + Keys(rest);
      WellFormedTail(ls);
      assert ls[0].productId !in Keys(rest);
      if ls[0].productId == key {
        LookupIffKey(rest, key);
      } else {
        DeleteWellFormed(rest, key);
        assert Keys(Delete(ls, key)) == [ls[0].productId] + Keys(Delete(rest, key));
        LookupIffKey(Delete(rest, key), ls[0].productId);
        LookupIffKey(rest, ls[0].productId);
      }
    }
  }

  /** Deleting from a well-formed cart keeps the remaining keys in their order. */
  lemma {:induction false} DeleteKeys(ls: Lines, key: string)
    requires WellFormed(ls)
    ensures Keys(Delete(ls, key)) == Filter(Keys(ls), NotKey(key))
  {
    if ls != [] {
      var rest := ls[1..];
      assert Keys(ls) == [ls[0].productId] + Keys(rest);
      WellFormedTail(ls);
      if ls[0].productId == key {
        assert key !in Keys(rest);
        FilterAll(Keys(rest), NotKey(key));
      } else {
        DeleteKeys(rest, key);
        assert Keys(Delete(ls, key)) == [ls[0].productId] + Keys(Delete(rest, key));
        assert ([ls[0].productId] + Keys(rest))[1..] == Keys(rest);
      }
    }
  }

  lemma WellFormedTail(ls: Lines)
    requires WellFormed(ls) && ls != []
    ensures WellFormed(ls[1..])
  {
    var rest := ls[1..];
    assert forall i :: 0 <= i < |rest| ==> Keys(rest)[i] == Keys(ls)[i + 1];
  }

  /** Deleting an absent key changes nothing. */
  lemma {:induction false} DeleteAbsent(ls: Lines, key: string)
    requires Lookup(ls, key).None?
    ensures Delete(ls, key) == ls
  {
    if ls != [] {
      DeleteAbsent(ls[1..], key);
    }
  }
}
