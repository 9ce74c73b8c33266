/** The catalogue's product entity and the filter-then-sort pipeline that the
    products page (src/pages/Products.jsx) and the home-page showcase
    (src/components/MainFeature.jsx) both compute from their filter controls:
    five conjunctive predicates, then a stable sort chosen by `sortBy`. */
module Catalog {
  import opened Seqs
  import opened Text
  import opened Sorting

  datatype Product = Product(
    id: int, name: string, description: string, price: real, originalPrice: real,
    category: string, brand: string, sizes: seq<string>, colors: seq<string>,
    image: string, rating: real, reviews: int, inStock: bool, features: seq<string>)

  /** The filter controls: category, the inclusive price range `[minPrice, maxPrice]`,
      brand, size, search term and sort mode. */
  datatype Filters = Filters(
    category: string, minPrice: real, maxPrice: real, brand: string, size: string,
    searchTerm: string, sortBy: string)

  /** The controls' initial values, which `clearFilters` restores. */
  const DefaultFilters: Filters := Filters("all", 0.0, 1000.0, "all", "all", "", "relevance")

  /** The five predicates; 'all' is a wildcard for category, brand and size. */
  predicate MatchesCategory(f: Filters, p: Product) { f.category == "all" || p.category == f.category }
  predicate MatchesPrice(f: Filters, p: Product) { f.minPrice <= p.price && p.price <= f.maxPrice }
  predicate MatchesBrand(f: Filters, p: Product) { f.brand == "all" || p.brand == f.brand }
  predicate MatchesSize(f: Filters, p: Product) { f.size == "all" || f.size in p.sizes }
  /** The lower-cased term occurs in the lower-cased name or description. */
  predicate MatchesSearch(f: Filters, p: Product)
  {
    Contains(Lower(p.name), Lower(f.searchTerm)) || Contains(Lower(p.description), Lower(f.searchTerm))
  }

  predicate Matches(f: Filters, p: Product)
  {
    MatchesCategory(f, p) && MatchesPrice(f, p) && MatchesBrand(f, p) && MatchesSize(f, p) && MatchesSearch(f, p)
  }

  /** The callback handed to `filter`. */
  function MatchesFn(f: Filters): Product -> bool
  {
    (p: Product) => Matches(f, p)
  }

  /** `products.filter(...)`: exactly the products that satisfy all five
      predicates, in catalogue order and with their multiplicity. */
  function FilterProducts(products: seq<Product>, f: Filters): (r: seq<Product>)
    ensures IsSubseq(r, products)
    ensures forall p :: p in r <==> p in products && Matches(f, p)
    ensures forall p :: multiset(r)[p] == if Matches(f, p) then multiset(products)[p] else 0
  {
    FilterMultiset(products, MatchesFn(f));
    Filter(products, MatchesFn(f))
  }

  /** With every wildcard set, an empty term and a price range covering every
      product, the filter keeps the whole list in order. */
  lemma WildcardsKeepAll(products: seq<Product>, f: Filters)
    requires f.category == "all" && f.brand == "all" && f.size == "all" && f.searchTerm == ""
    requires forall i :: 0 <= i < |products| ==> f.minPrice <= products[i].price <= f.maxPrice
    ensures FilterProducts(products, f) == products
  {
    forall i | 0 <= i < |products| ensures MatchesFn(f)(products[i]) {
      ContainsEmpty(Lower(products[i].name));
    }
    FilterAll(products, MatchesFn(f));
  }

  /** The price range is inclusive at both ends. */
  lemma PriceBoundsInclusive(f: Filters, p: Product)
    requires p.price == f.minPrice || p.price == f.maxPrice
    requires f.minPrice <= f.maxPrice
    ensures MatchesPrice(f, p)
  {
  }

  /** An empty search term matches every product. */
  lemma EmptySearchMatches(f: Filters, p: Product)
    requires f.searchTerm == ""
    ensures MatchesSearch(f, p)
  {
    ContainsEmpty(Lower(p.name));
  }

  function PriceOf(p: Product): real { p.price }
  function RatingOf(p: Product): real { p.rating }
  function IdOf(p: Product): int { p.id }

  /** The sort modes with a comparator; every other mode compares as 0. */
  predicate KnownSort(mode: string)
  {
    mode == "price_low" || mode == "price_high" || mode == "rating" || mode == "newest"
  }

  /** `.sort(...)` with the comparator chosen by `sortBy`: a stable sort by
      price, price descending, rating descending or id descending; any other
      mode (such as 'relevance') keeps the input order. */
  function SortProducts(s: seq<Product>, mode: string): (r: seq<Product>)
    ensures |r| == |s| && multiset(r) == multiset(s)
    ensures !KnownSort(mode) ==> r == s
  {
    if mode == "price_low" then SortBy(s, PriceOf, RealAsc)
    else if mode == "price_high" then SortBy(s, PriceOf, RealDesc)
    else if mode == "rating" then SortBy(s, RatingOf, RealDesc)
    else if mode == "newest" then SortBy(s, IdOf, IntDesc)
    else s
  }

  /** Each mode orders its output by its key. */
  lemma SortProductsOrdered(s: seq<Product>, mode: string)
    ensures var r := SortProducts(s, mode);
      && (mode == "price_low" ==> forall i, j :: 0 <= i < j < |r| ==> r[i].price <= r[j].price)
      && (mode == "price_high" ==> forall i, j :: 0 <= i < j < |r| ==> r[i].price >= r[j].price)
      && (mode == "rating" ==> forall i, j :: 0 <= i < j < |r| ==> r[i].rating >= r[j].rating)
      && (mode == "newest" ==> forall i, j :: 0 <= i < j < |r| ==> r[i].id >= r[j].id)
  {
    NumericOrders();
    if mode == "price_low" {
      SortBySorted(s, PriceOf, RealAsc);
    } else if mode == "price_high" {
      SortBySorted(s, PriceOf, RealDesc);
    } else if mode == "rating" {
      SortBySorted(s, RatingOf, RealDesc);
    } else if mode == "newest" {
      SortBySorted(s, IdOf, IntDesc);
    }
  }

  /** Products with equal keys keep the order the filter gave them. */
  lemma SortProductsStable(s: seq<Product>, mode: string)
    ensures var r := SortProducts(s, mode);
      && (mode == "price_low" || mode == "price_high" ==>
            forall k: real :: KeyClass(r, PriceOf, k) == KeyClass(s, PriceOf, k))
      && (mode == "rating" ==> forall k: real :: KeyClass(r, RatingOf, k) == KeyClass(s, RatingOf, k))
      && (mode == "newest" ==> forall k: int :: KeyClass(r, IdOf, k) == KeyClass(s, IdOf, k))
  {
    NumericOrders();
    if mode == "price_low" {
      forall k: real ensures KeyClass(SortBy(s, PriceOf, RealAsc), PriceOf, k) == KeyClass(s, PriceOf, k) {
        SortByStable(s, PriceOf, RealAsc, k);
      }
    } else if mode == "price_high" {
      forall k: real ensures KeyClass(SortBy(s, PriceOf, RealDesc), PriceOf, k) == KeyClass(s, PriceOf, k) {
        SortByStable(s, PriceOf, RealDesc, k);
      }
    } else if mode == "rating" {
      forall k: real ensures KeyClass(SortBy(s, RatingOf, RealDesc), RatingOf, k) == KeyClass(s, RatingOf, k) {
        SortByStable(s, RatingOf, RealDesc, k);
      }
    } else if mode == "newest" {
      forall k: int ensures KeyClass(SortBy(s, IdOf, IntDesc), IdOf, k) == KeyClass(s, IdOf, k) {
        SortByStable(s, IdOf, IntDesc, k);
      }
    }
  }

  /** `filteredProducts`: the matching products, sorted by the chosen mode. */
  function Visible(products: seq<Product>, f: Filters): (r: seq<Product>)
    ensures forall p :: p in r <==> p in products && Matches(f, p)
    ensures multiset(r) == multiset(FilterProducts(products, f))
    ensures !KnownSort(f.sortBy) ==> IsSubseq(r, products)
  {
    var m := FilterProducts(products, f);
    var r := SortProducts(m, f.sortBy);
    assert forall p :: p in r <==> p in multiset(r);
    assert forall p :: p in m <==> p in multiset(m);
    r
  }
}
