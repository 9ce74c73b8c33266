/** The home-page showcase (src/components/MainFeature.jsx): a fixed list of
    six products, the same filter-then-sort pipeline as the products page, a
    local cart of product lines keyed by product id, a favourites list and a
    counter of cart units. */
module MainFeature {
  import opened Seqs
  import opened Catalog
  import opened ProductsContext

  /** A local cart line: the product's fields spread into the line, plus a quantity. */
  datatype ShowcaseLine = ShowcaseLine(product: Product, quantity: int)

  predicate HasId(cart: seq<ShowcaseLine>, id: int)
  {
    exists i :: 0 <= i < |cart| && cart[i].product.id == id
  }

  /** Every line whose product id is `id` gets one more unit; the line keeps its own fields. */
  function Increment(cart: seq<ShowcaseLine>, id: int): (r: seq<ShowcaseLine>)
    ensures |r| == |cart|
    ensures forall i :: 0 <= i < |cart| ==>
      r[i] == if cart[i].product.id == id then cart[i].(quantity := cart[i].quantity + 1) else cart[i]
  {
    if cart == [] then []
    else
      var head := if cart[0].product.id == id then cart[0].(quantity := cart[0].quantity + 1) else cart[0];
      [head] + Increment(cart[1..], id)
  }

  /** The local `addToCart`: a product already in the cart gains a unit, a new one is appended with quantity 1. */
  function AddLine(cart: seq<ShowcaseLine>, p: Product): (r: seq<ShowcaseLine>)
    ensures HasId(cart, p.id) ==> |r| == |cart|
    ensures HasId(cart, p.id) ==> forall i :: 0 <= i < |cart| && cart[i].product.id != p.id ==> r[i] == cart[i]
    ensures HasId(cart, p.id) ==> forall i :: 0 <= i < |cart| && cart[i].product.id == p.id ==>
      r[i].product == cart[i].product && r[i].quantity == cart[i].quantity + 1
    ensures !HasId(cart, p.id) ==> r == cart + [ShowcaseLine(p, 1)]
  {
    if HasId(cart, p.id) then Increment(cart, p.id) else cart + [ShowcaseLine(p, 1)]
  }

  /** `cart.reduce((sum, item) => sum + item.quantity, 0)`. */
  function CartCount(cart: seq<ShowcaseLine>): (n: int)
    ensures (forall i :: 0 <= i < |cart| ==> cart[i].quantity > 0) ==> n >= |cart|
  {
    if cart == [] then 0 else cart[0].quantity + CartCount(cart[1..])
  }

  /** At most one line per product id. */
  ghost predicate OneLinePerId(cart: seq<ShowcaseLine>)
  {
    forall i, j :: 0 <= i < j < |cart| ==> cart[i].product.id != cart[j].product.id
  }

  lemma {:induction false} CartCountAppend(a: seq<ShowcaseLine>, b: seq<ShowcaseLine>)
    ensures CartCount(a + b) == CartCount(a) + CartCount(b)
  {
    if a == [] {
      assert a + b == b;
    } else {
      assert (a + b)[0] == a[0] && (a + b)[1..] == a[1..] + b;
      CartCountAppend(a[1..], b);
    }
  }

  lemma {:induction false} IncrementCount(cart: seq<ShowcaseLine>, id: int)
    requires OneLinePerId(cart) && HasId(cart, id)
    ensures CartCount(Increment(cart, id)) == CartCount(cart) + 1
  {
    var r := Increment(cart, id);
    assert r == [r[0]] + Increment(cart[1..], id);
    if cart[0].product.id == id {
      assert Increment(cart[1..], id) == cart[1..] by {
        forall k | 0 <= k < |cart[1..]| ensures cart[1..][k].product.id != id {
          assert cart[1..][k] == cart[k + 1];
        }
      }
    } else {
      var i :| 0 <= i < |cart| && cart[i].product.id == id;
      assert cart[1..][i - 1].product.id == id;
      IncrementCount(cart[1..], id);
    }
  }

  /** With one line per product, every add raises the counter by exactly one
      and keeps one line per product. */
  lemma AddLineCount(cart: seq<ShowcaseLine>, p: Product)
    requires OneLinePerId(cart)
    ensures CartCount(AddLine(cart, p)) == CartCount(cart) + 1
    ensures OneLinePerId(AddLine(cart, p))
  {
    if HasId(cart, p.id) {
      IncrementCount(cart, p.id);
    } else {
      CartCountAppend(cart, [ShowcaseLine(p, 1)]);
      assert CartCount([ShowcaseLine(p, 1)]) == 1;
    }
  }

  /** The showcase's state. */
  class Showcase {
    const products: seq<Product>
    var filters: Filters
    var cart: seq<ShowcaseLine>
    var favorites: seq<int>

    /** The six showcase products are the first six of the store's table. */
    constructor()
      ensures products == ProductTable[..6]
      ensures filters == DefaultFilters && cart == [] && favorites == []
      ensures Valid()
    {
      products := ProductTable[..6];
      filters := DefaultFilters;
      cart := [];
      favorites := [];
    }

    /** The product list is the table's first six, cart lines stay one per product and favourites stay duplicate-free. */
    ghost predicate Valid()
      reads this
    {
      products == ProductTable[..6] && OneLinePerId(cart) && NoDup(favorites)
    }

    /** `filteredProducts`. */
    function Shown(): (r: seq<Product>)
      reads this
      ensures forall p :: p in r <==> p in products && Matches(filters, p)
    {
      Visible(products, filters)
    }

    /** The number shown on the cart counter. */
    function Count(): int
      reads this
    {
      CartCount(cart)
    }

    method AddToCart(p: Product)
      requires Valid()
      modifies this
      ensures cart == AddLine(old(cart), p)
      ensures Count() == old(Count()) + 1
      ensures filters == old(filters) && favorites == old(favorites)
      ensures Valid()
    {
      AddLineCount(cart, p);
      cart := AddLine(cart, p);
    }

    method ToggleFavorite(id: int)
      requires Valid()
      modifies this
      ensures favorites == Toggle(old(favorites), id)
      ensures id in favorites <==> id !in old(favorites)
      ensures filters == old(filters) && cart == old(cart)
      ensures Valid()
    {
      favorites := Toggle(favorites, id);
    }

    /** `clearFilters`: every control back to its default; cart and favourites untouched. */
    method ClearFilters()
      requires Valid()
      modifies this
      ensures filters == DefaultFilters
      ensures Shown() == products
      ensures cart == old(cart) && favorites == old(favorites)
      ensures Valid()
    {
      filters := DefaultFilters;
      TablePricesInRange();
      WildcardsKeepAll(products, DefaultFilters);
      assert !KnownSort(DefaultFilters.sortBy);
    }
  }
}
