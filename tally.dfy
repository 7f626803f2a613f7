/**
  Sums of per-key quantities over the keys of a JavaScript object, visited in
  insertion order, and how they change when one key is set or deleted. Both
  the cart (quantities by product id) and the seller's category counts are
  objects of this kind.
 */
module Tally {
  /** No key occurs twice. */
  predicate Distinct(keys: seq<string>)
  {
    forall i, j :: 0 <= i < j < |keys| ==> keys[i] != keys[j]
  }

  /** The sum of `m[k]` over the keys `k` of `keys`. */
  function SumOver(keys: seq<string>, m: map<string, int>): int
    requires forall k :: k in keys ==> k in m
  {
    if keys == [] then 0 else SumOver(keys[..|keys| - 1], m) + m[keys[|keys| - 1]]
  }

  /** `keys` without `k`, the others in their order. */
  function Without(keys: seq<string>, k: string): (r: seq<string>)
    ensures forall x :: x in r <==> x in keys && x != k
    ensures k !in keys ==> r == keys
    ensures Distinct(keys) ==> Distinct(r)
    ensures |r| <= |keys|
  {
    if keys == [] then []
    else
      var init, last := keys[..|keys| - 1], keys[|keys| - 1];
      var rest := Without(init, k);
      assert keys == init + [last];
      assert Distinct(keys) ==> last !in init by {
        forall i | 0 <= i < |init| ensures Distinct(keys) ==> init[i] != last {
          assert init[i] == keys[i];
        }
      }
      if last == k then rest else rest + [last]
  }

  /** Changing the value of one key changes the sum by the difference. */
  lemma {:induction false} SumOverUpdate(keys: seq<string>, m: map<string, int>, k: string, v: int)
    requires Distinct(keys) && forall x :: x in keys ==> x in m
    requires k in keys
    ensures SumOver(keys, m[k := v]) == SumOver(keys, m) - m[k] + v
  {
    var last := keys[|keys| - 1];
    var init := keys[..|keys| - 1];
    assert Distinct(init);
    if last == k {
      assert forall i :: 0 <= i < |init| ==> init[i] != k by {
        forall i | 0 <= i < |init| ensures init[i] != k {
          assert init[i] == keys[i];
        }
      }
      SumOverUnaffected(init, m, k, v);
    } else {
      assert k in init by {
        var i :| 0 <= i < |keys| && keys[i] == k;
        assert i < |keys| - 1 && init[i] == k;
      }
      SumOverUpdate(init, m, k, v);
    }
  }

  /** A key outside `keys` does not take part in the sum. */
  lemma {:induction false} SumOverUnaffected(keys: seq<string>, m: map<string, int>, k: string, v: int)
    requires forall x :: x in keys ==> x in m
    requires k !in keys
    ensures SumOver(keys, m[k := v]) == SumOver(keys, m)
  {
    if keys != [] {
      SumOverUnaffected(keys[..|keys| - 1], m, k, v);
    }
  }

  /** Dropping a key from the key list removes its value from the sum. */
  lemma {:induction false} SumOverWithout(keys: seq<string>, m: map<string, int>, k: string)
    requires Distinct(keys) && forall x :: x in keys ==> x in m
    requires k in keys
    ensures SumOver(Without(keys, k), m) == SumOver(keys, m) - m[k]
  {
    var last := keys[|keys| - 1];
    var init := keys[..|keys| - 1];
    assert Distinct(init);
    if last == k {
      assert k !in init by {
        forall i | 0 <= i < |init| ensures init[i] != k {
          assert init[i] == keys[i];
        }
      }
    } else {
      assert k in init by {
        var i :| 0 <= i < |keys| && keys[i] == k;
        assert i < |keys| - 1 && init[i] == k;
      }
      SumOverWithout(init, m, k);
      var rest := Without(init, k);
      assert Without(keys, k) == rest + [last];
      assert (rest + [last])[..|rest + [last]| - 1] == rest;
    }
  }

  /** The sum does not depend on values the keys do not reach. */
  lemma {:induction false} SumOverRemoved(keys: seq<string>, m: map<string, int>, k: string)
    requires forall x :: x in keys ==> x in m
    requires k !in keys
    ensures SumOver(keys, m - {k}) == SumOver(keys, m)
  {
    if keys != [] {
      SumOverRemoved(keys[..|keys| - 1], m, k);
    }
  }
}
