/**
  The seller's category page (client/src/pages/seller/Categories.jsx): the
  number of loaded products per category, and which products a category
  deletion moves to "Others" first.
 */
module SellerCategories {
  import opened Js
  import opened Tally
  import opened ClientCatalog

  const Others: string := "Others"

  /** The category a product is counted under: its trimmed category, or
      "Others" when that is missing or blank. */
  function CategoryKey(category: string): string
  {
    if category != "" && Trim(category) != "" then Trim(category) else Others
  }

  /** The key is never blank: the trimmed category when that is not empty,
      "Others" otherwise. */
  lemma CategoryKeyMeaning(category: string)
    ensures CategoryKey(category) != "" && Trim(CategoryKey(category)) == CategoryKey(category)
    ensures Trim(category) != "" ==> CategoryKey(category) == Trim(category)
    ensures Trim(category) == "" ==> CategoryKey(category) == Others
  {
    OthersKey();
    if category == "" {
      assert Trim(category) == "";
    }
    if Trim(category) != "" {
      TrimTwice(category);
    }
  }

  /** A product filed under "Others" is counted under "Others". */
  lemma OthersKey()
    ensures CategoryKey(Others) == Others && Trim(Others) == Others
  {
    assert TrimStart(Others) == Others;
    assert TrimEnd(Others) == Others;
  }

  /** The `counts` object: a count per category key, keys in insertion order. */
  datatype Counts = Counts(keys: seq<string>, count: map<string, int>)

  /** Every key listed once, and the listed keys are the keys with a count. */
  ghost predicate WellFormed(c: Counts)
  {
    Distinct(c.keys) && forall k :: k in c.count <==> k in c.keys
  }

  /** `counts[name] || 0`: the count of a category, 0 when it has none. */
  function CountOf(c: Counts, name: string): (n: int)
    ensures name !in c.count ==> n == 0
  {
    if name in c.count && c.count[name] != 0 then c.count[name] else 0
  }

  /** `counts[key] = (counts[key] || 0) + 1`: a new key goes last. */
  function Bump(c: Counts, key: string): Counts
  {
    var n := CountOf(c, key) + 1;
    if key in c.count then Counts(c.keys, c.count[key := n]) else Counts(c.keys + [key], c.count[key := n])
  }

  /** Counting one more product keeps the counts well formed and positive. */
  lemma BumpKeepsShape(c: Counts, key: string)
    requires WellFormed(c) && forall k :: k in c.count ==> c.count[k] >= 1
    ensures WellFormed(Bump(c, key)) && forall k :: k in Bump(c, key).count ==> Bump(c, key).count[k] >= 1
    ensures |Bump(c, key).keys| <= |c.keys| + 1
  {
    assert forall i :: 0 <= i < |c.keys| ==> c.keys[i] in c.count;
  }

  /** The counts after visiting `products` in order. */
  function TallyOf(products: seq<Product>): (r: Counts)
    ensures WellFormed(r)
    ensures forall k :: k in r.count ==> r.count[k] >= 1
    ensures |r.keys| <= |products|
  {
    if products == [] then Counts([], map[])
    else
      var c := TallyOf(products[..|products| - 1]);
      var key := CategoryKey(products[|products| - 1].category);
      BumpKeepsShape(c, key);
      Bump(c, key)
  }

  /** categoryCounts: one pass over the products. */
  method CategoryCounts(products: seq<Product>) returns (counts: Counts)
    ensures counts == TallyOf(products)
  {
    counts := Counts([], map[]);
    for i := 0 to |products|
      invariant counts == TallyOf(products[..i])
    {
      assert products[..i + 1][..i] == products[..i];
      var key := CategoryKey(products[i].category);
      counts := Bump(counts, key);
    }
    assert products[..|products|] == products;
  }

  /** One more product adds one to the total. */
  lemma BumpSum(c: Counts, key: string)
    requires WellFormed(c) && forall k :: k in c.count ==> c.count[k] >= 1
    ensures SumOver(Bump(c, key).keys, Bump(c, key).count) == SumOver(c.keys, c.count) + 1
  {
    if key in c.count {
      SumOverUpdate(c.keys, c.count, key, c.count[key] + 1);
    } else {
      SumOverUnaffected(c.keys, c.count, key, 1);
      assert (c.keys + [key])[..|c.keys|] == c.keys;
    }
  }

  /** One more product adds one to its own key's count and nothing to the others. */
  lemma BumpCount(c: Counts, key: string, name: string)
    requires forall k :: k in c.count ==> c.count[k] >= 1
    ensures CountOf(Bump(c, key), name) == CountOf(c, name) + if key == name then 1 else 0
  {
  }

  /** The counts add up to the number of products. */
  lemma {:induction false} CountsAddUp(products: seq<Product>)
    ensures SumOver(TallyOf(products).keys, TallyOf(products).count) == |products|
  {
    if products != [] {
      var init := products[..|products| - 1];
      CountsAddUp(init);
      BumpSum(TallyOf(init), CategoryKey(products[|products| - 1].category));
    }
  }

  /** Keeps the products counted under `name`. */
  function InCategory(name: string): Product -> bool
  {
    (p: Product) => CategoryKey(p.category) == name
  }

  /** The products a deletion of `catName` moves: those counted under it. */
  function ToMove(products: seq<Product>, catName: string): seq<Product>
  {
    Filter(products, InCategory(catName))
  }

  /** The count of a category is the number of products it would move. */
  lemma {:induction false} CountIsToMove(products: seq<Product>, name: string)
    ensures CountOf(TallyOf(products), name) == |ToMove(products, name)|
  {
    if products != [] {
      var init, last := products[..|products| - 1], products[|products| - 1];
      CountIsToMove(init, name);
      FilterLast(products, InCategory(name));
      assert InCategory(name)(last) == (CategoryKey(last.category) == name);
    }
  }

  /** A category reads as 0 exactly when no product is counted under it. */
  lemma AbsentIffNoProducts(products: seq<Product>, name: string)
    ensures CountOf(TallyOf(products), name) == 0 <==>
              forall i :: 0 <= i < |products| ==> CategoryKey(products[i].category) != name
  {
    CountIsToMove(products, name);
    var r := ToMove(products, name);
    if r == [] {
      forall i | 0 <= i < |products| ensures CategoryKey(products[i].category) != name {
        assert products[i] in products && products[i] !in r;
      }
    } else {
      assert r[0] in r;
      var i :| 0 <= i < |products| && products[i] == r[0];
      assert InCategory(name)(r[0]);
    }
  }

  /** deleteCategory's choice: the products under `catName` when its count
      is positive, none otherwise. */
  function Moves(products: seq<Product>, counts: Counts, catName: string): seq<Product>
  {
    if CountOf(counts, catName) > 0 then ToMove(products, catName) else []
  }

  /** With the counts of the same products, the count test skips no product. */
  lemma GuardSkipsNothing(products: seq<Product>, catName: string)
    ensures Moves(products, TallyOf(products), catName) == ToMove(products, catName)
  {
    CountIsToMove(products, catName);
  }

  /** The requests of a deletion, in the order they are sent. */
  datatype Request = UpdateCategory(productId: string, category: string) | RemoveCategory(id: string)

  function MoveRequests(toMove: seq<Product>): (r: seq<Request>)
    ensures |r| == |toMove|
    ensures forall i :: 0 <= i < |r| ==> r[i] == UpdateCategory(toMove[i].id, Others)
  {
    seq(|toMove|, i requires 0 <= i < |toMove| => UpdateCategory(toMove[i].id, Others))
  }

  /** deleteCategory: when confirmed, one update per product to move, then the
      deletion; nothing when the prompt is declined. */
  method DeleteCategory(id: string, catName: string, products: seq<Product>, counts: Counts, confirmed: bool)
    returns (requests: seq<Request>)
    ensures !confirmed ==> requests == []
    ensures confirmed ==> requests == MoveRequests(Moves(products, counts, catName)) + [RemoveCategory(id)]
  {
    requests := [];
    if !confirmed {
      return;
    }
    var count := CountOf(counts, catName);
    if count > 0 {
      var toMove := ToMove(products, catName);
      for i := 0 to |toMove|
        invariant requests == MoveRequests(toMove[..i])
      {
        requests := requests + [UpdateCategory(toMove[i].id, Others)];
      }
      assert toMove[..|toMove|] == toMove;
    } else {
      assert requests == MoveRequests([]);
    }
    requests := requests + [RemoveCategory(id)];
  }

  /** A product as reloaded after the move: filed under "Others" when it
      was counted under `catName`. */
  function Moved(p: Product, catName: string): (q: Product)
    ensures q.id == p.id && q.name == p.name && q.offerPrice == p.offerPrice && q.inStock == p.inStock
  {
    if CategoryKey(p.category) == catName then p.(category := Others) else p
  }

  /** The products as reloaded after every update succeeded. */
  function Reassigned(products: seq<Product>, catName: string): (r: seq<Product>)
    ensures |r| == |products|
  {
    if products == [] then []
    else Reassigned(products[..|products| - 1], catName) + [Moved(products[|products| - 1], catName)]
  }

  /** The last reloaded product is the moved last product. */
  lemma ReassignedLast(products: seq<Product>, catName: string)
    requires products != []
    ensures var r := Reassigned(products, catName);
            r[..|r| - 1] == Reassigned(products[..|products| - 1], catName)
            && r[|r| - 1] == Moved(products[|products| - 1], catName)
  {
    var r := Reassigned(products, catName);
    var init := Reassigned(products[..|products| - 1], catName);
    assert r == init + [r[|r| - 1]];
    assert (init + [r[|r| - 1]])[..|init|] == init;
  }

  /** Where a moved product is counted. */
  lemma MovedKey(p: Product, catName: string)
    requires catName != Others
    ensures CategoryKey(Moved(p, catName).category) ==
              if CategoryKey(p.category) == catName then Others else CategoryKey(p.category)
  {
    OthersKey();
  }

  /** After the move no product is counted under a deleted category other
      than "Others". */
  lemma {:induction false} EmptiedAfterMove(products: seq<Product>, catName: string)
    requires catName != Others
    ensures CountOf(TallyOf(Reassigned(products, catName)), catName) == 0
  {
    if products != [] {
      var init, last := products[..|products| - 1], products[|products| - 1];
      EmptiedAfterMove(init, catName);
      ReassignedLast(products, catName);
      MovedKey(last, catName);
      BumpCount(TallyOf(Reassigned(init, catName)), CategoryKey(Moved(last, catName).category), catName);
    }
  }

  /** The move adds the deleted category's count to that of "Others". */
  lemma {:induction false} OthersGainsMoved(products: seq<Product>, catName: string)
    requires catName != Others
    ensures CountOf(TallyOf(Reassigned(products, catName)), Others)
            == CountOf(TallyOf(products), Others) + CountOf(TallyOf(products), catName)
  {
    if products != [] {
      var init, last := products[..|products| - 1], products[|products| - 1];
      OthersGainsMoved(init, catName);
      ReassignedLast(products, catName);
      MovedKey(last, catName);
      var key := CategoryKey(last.category);
      BumpCount(TallyOf(Reassigned(init, catName)), CategoryKey(Moved(last, catName).category), Others);
      BumpCount(TallyOf(init), key, Others);
      BumpCount(TallyOf(init), key, catName);
    }
  }
}
