/** The products page (src/pages/Products.jsx): the filter controls and the
    current page number, nine products per page, the page buttons and
    `clearFilters`. Every handler only sets state to a computed value, so
    each is a function from the old page state to the new one. */
module ProductsPage {
  import opened Seqs
  import opened Catalog
  import opened ProductsContext

  const PerPage: nat := 9

  /** The page's state: the filter controls and `currentPage`. */
  datatype PageState = PageState(filters: Filters, currentPage: nat)

  const InitialState: PageState := PageState(DefaultFilters, 1)

  /** `Math.ceil(n / productsPerPage)`: the fewest pages of nine that hold `n` products. */
  function TotalPages(n: nat): (t: nat)
    ensures n <= t * PerPage
    ensures t > 0 ==> (t - 1) * PerPage < n
  {
    (n + PerPage - 1) / PerPage
  }

  /** `currentProducts`: page `page` shows the products at positions
      `(page - 1) * 9` up to, not including, `page * 9`. */
  function CurrentProducts(list: seq<Product>, page: nat): (r: seq<Product>)
    requires page >= 1
    ensures |r| <= PerPage
    ensures forall k :: 0 <= k < |r| ==> (page - 1) * PerPage + k < |list| && r[k] == list[(page - 1) * PerPage + k]
    ensures (page - 1) * PerPage < |list| ==>
      |r| == if page * PerPage <= |list| then PerPage else |list| - (page - 1) * PerPage
    ensures (page - 1) * PerPage >= |list| ==> r == []
  {
    Slice(list, (page - 1) * PerPage, page * PerPage)
  }

  /** Every product lies on exactly one page: position `i` is entry `i % 9`
      of page `i / 9 + 1`, and that page is at most `TotalPages`. */
  lemma EveryProductOnItsPage(list: seq<Product>, i: nat)
    requires i < |list|
    ensures var p := i / PerPage + 1;
      && p <= TotalPages(|list|)
      && i % PerPage < |CurrentProducts(list, p)|
      && CurrentProducts(list, p)[i % PerPage] == list[i]
  {
    var p := i / PerPage + 1;
    var t := TotalPages(|list|);
    assert (p - 1) * PerPage + i % PerPage == i;
    assert (p - 1) * PerPage < |list|;
  }

  /** The "previous" button: `Math.max(prev - 1, 1)`. */
  function Prev(page: nat): (r: nat)
    ensures r >= 1
    ensures page > 1 ==> r == page - 1
  {
    if page - 1 >= 1 then page - 1 else 1
  }

  /** The "next" button: `Math.min(prev + 1, totalPages)`. */
  function Next(page: nat, total: nat): (r: nat)
    ensures r <= total
    ensures page < total ==> r == page + 1
  {
    if page + 1 <= total then page + 1 else total
  }

  /** The buttons are rendered only when there is more than one page; from
      any page within range, both keep the page within `1..totalPages`. */
  lemma NavigationStaysInRange(page: nat, total: nat)
    requires 1 <= page <= total && total > 1
    ensures 1 <= Prev(page) <= total
    ensures 1 <= Next(page, total) <= total
  {
  }

  /** The page's view: the visible products and the current page of them. */
  function PageView(products: seq<Product>, s: PageState): (r: seq<Product>)
    requires s.currentPage >= 1
    ensures forall p :: p in r ==> p in products && Matches(s.filters, p)
  {
    var v := Visible(products, s.filters);
    var r := CurrentProducts(v, s.currentPage);
    assert forall k :: 0 <= k < |r| ==> r[k] in v;
    r
  }

  /** `clearFilters`: every control back to its default and the page back to 1. */
  function ClearFilters(s: PageState): (r: PageState)
    ensures r == InitialState
  {
    PageState(DefaultFilters, 1)
  }

  /** After `clearFilters` a catalogue of one to nine products priced within
      0..1000 is shown whole, in catalogue order, on a single page. */
  lemma ClearedShowsAll(products: seq<Product>, s: PageState)
    requires 1 <= |products| <= PerPage
    requires forall i :: 0 <= i < |products| ==> 0.0 <= products[i].price <= 1000.0
    ensures Visible(products, ClearFilters(s).filters) == products
    ensures TotalPages(|products|) == 1
    ensures PageView(products, ClearFilters(s)) == products
  {
    WildcardsKeepAll(products, DefaultFilters);
    assert !KnownSort(DefaultFilters.sortBy);
    assert CurrentProducts(products, 1) == products;
  }

  /** After `clearFilters` the products page shows the whole product table. */
  lemma ClearedShowsWholeTable(s: PageState)
    ensures PageView(ProductTable, ClearFilters(s)) == ProductTable
  {
    TablePricesInRange();
    ProductTableIds();
    ClearedShowsAll(ProductTable, s);
  }
}
