/**
  The "Best Sellers" strip (client/src/components/BestSeller.jsx): at most
  five in-stock products, narrowed by the search box when it holds more than
  white space.
 */
module BestSeller {
  import opened Js
  import opened ClientCatalog
  import opened ProductsPage

  const Shown: nat := 5

  /** The products the strip shows. The blank test trims the query; the
      match uses it untrimmed. */
  function BestSellers(products: seq<Product>, searchQuery: string): (r: seq<Product>)
    ensures |r| <= Shown
  {
    var displayProducts := Filter(products, InStock);
    if searchQuery != "" && |Trim(searchQuery)| > 0 then Take(Filter(displayProducts, Matcher(searchQuery)), Shown)
    else Take(displayProducts, Shown)
  }

  /** A shown product is loaded and in stock, and matches the untrimmed
      query when the query is not blank. */
  lemma ShownAreInStock(products: seq<Product>, searchQuery: string, p: Product)
    requires p in BestSellers(products, searchQuery)
    ensures p in products && p.inStock
    ensures Trim(searchQuery) != "" ==> NameMatches(searchQuery, p)
  {
    var displayProducts := Filter(products, InStock);
    if searchQuery != "" && |Trim(searchQuery)| > 0 {
      var matched := Filter(displayProducts, Matcher(searchQuery));
      assert p in matched;
      assert Matcher(searchQuery)(p);
    } else {
      assert p in displayProducts;
      assert Trim(searchQuery) == "" by {
        if searchQuery == "" {
          assert Trim("") == "";
        }
      }
    }
  }

  /** A blank query shows the first five in-stock products in order. */
  lemma BlankQueryFirstFive(products: seq<Product>, searchQuery: string)
    requires Trim(searchQuery) == ""
    ensures BestSellers(products, searchQuery) == Take(Filter(products, InStock), Shown)
  {
  }

  /** A query that is not blank shows the first five of what the products
      page lists for it. */
  lemma AgreesWithProductsPage(products: seq<Product>, searchQuery: string)
    requires Trim(searchQuery) != ""
    ensures BestSellers(products, searchQuery) == Take(Visible(products, searchQuery), Shown)
  {
    assert Trim("") == "";
  }
}
