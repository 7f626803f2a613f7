/**
  The "All Products" page (client/src/pages/Products.jsx): the in-stock
  products, narrowed by the search box when it holds any text.
 */
module ProductsPage {
  import opened Js
  import opened ClientCatalog

  predicate InStock(p: Product)
  {
    p.inStock
  }

  /** The lower-cased name contains the lower-cased query. */
  predicate NameMatches(query: string, p: Product)
  {
    Includes(ToLower(p.name), ToLower(query))
  }

  function Matcher(query: string): Product -> bool
  {
    p => NameMatches(query, p)
  }

  /** The products the page lists for a search query. */
  function Visible(products: seq<Product>, searchQuery: string): seq<Product>
  {
    var availableProducts := Filter(products, InStock);
    if |searchQuery| > 0 then Filter(availableProducts, Matcher(searchQuery)) else availableProducts
  }

  /** A product is listed exactly when it is loaded, in stock, and matches
      the query when there is one. */
  lemma VisibleIff(products: seq<Product>, searchQuery: string, p: Product)
    ensures p in Visible(products, searchQuery) <==>
              p in products && p.inStock && (searchQuery == "" || NameMatches(searchQuery, p))
  {
    assert Matcher(searchQuery)(p) == NameMatches(searchQuery, p);
  }

  /** The list keeps the loaded order. */
  lemma VisibleInOrder(products: seq<Product>, searchQuery: string)
    ensures SubsequenceOf(Visible(products, searchQuery), products)
  {
    if |searchQuery| > 0 {
      FilterTwice(products, InStock, Matcher(searchQuery));
      FilterIsSubsequence(products, Both(InStock, Matcher(searchQuery)));
    } else {
      FilterIsSubsequence(products, InStock);
    }
  }

  /** With an empty query every in-stock product is listed. */
  lemma EmptyQueryListsInStock(products: seq<Product>)
    ensures Visible(products, "") == Filter(products, InStock)
  {
  }
}
