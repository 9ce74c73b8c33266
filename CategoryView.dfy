/** One category's page (src/pages/CategoryView.jsx): the route parameter is
    looked up in a table of eight categories; the products (six mock entries,
    delivered by a timer) are copied, sorted by the chosen key and then
    filtered by stock. Every step is an expression over the current state. */
module CategoryView {
  import opened Seqs
  import opened Text
  import opened Sorting

  datatype CategoryInfo = CategoryInfo(name: string, icon: string, color: string)

  /** The `categories` object, keyed by the route's `categoryId` string. */
  const CategoryTable: map<string, CategoryInfo> := map[
    "1" := CategoryInfo("Electronics", "Smartphone", "from-blue-500 to-cyan-500"),
    "2" := CategoryInfo("Fashion", "Shirt", "from-pink-500 to-rose-500"),
    "3" := CategoryInfo("Home & Garden", "Home", "from-green-500 to-emerald-500"),
    "4" := CategoryInfo("Sports", "Dumbbell", "from-orange-500 to-amber-500"),
    "5" := CategoryInfo("Books", "Book", "from-purple-500 to-violet-500"),
    "6" := CategoryInfo("Health & Beauty", "Heart", "from-red-500 to-pink-500"),
    "7" := CategoryInfo("Toys & Games", "Gamepad2", "from-yellow-500 to-orange-500"),
    "8" := CategoryInfo("Automotive", "Car", "from-gray-500 to-slate-500")
  ]

  /** `categories[categoryId]`; a missing key is `undefined`. */
  function CurrentCategory(categoryId: string): (r: Option<CategoryInfo>)
    ensures r.Some? <==> |categoryId| == 1 && '1' <= categoryId[0] <= '8'
  {
    TableKeys(categoryId);
    if categoryId in CategoryTable then Some(CategoryTable[categoryId]) else None
  }

  /** The table's keys are the single digits 1 to 8. */
  lemma TableKeys(categoryId: string)
    ensures categoryId in CategoryTable <==> |categoryId| == 1 && '1' <= categoryId[0] <= '8'
  {
    if |categoryId| == 1 && '1' <= categoryId[0] <= '8' {
      var c := categoryId[0];
      assert categoryId == [c];
      assert c == '1' || c == '2' || c == '3' || c == '4' || c == '5' || c == '6' || c == '7' || c == '8';
    }
  }

  /** The ids that resolve are exactly the decimal strings of 1 to 8. */
  lemma CategoryIdsResolve(categoryId: string)
    ensures CurrentCategory(categoryId).Some? <==> exists n :: 1 <= n <= 8 && categoryId == NatToString(n)
  {
    assert NatToString(1) == "1" && NatToString(2) == "2" && NatToString(3) == "3" && NatToString(4) == "4";
    assert NatToString(5) == "5" && NatToString(6) == "6" && NatToString(7) == "7" && NatToString(8) == "8";
    if categoryId in CategoryTable {
      var n := if categoryId == "1" then 1 else if categoryId == "2" then 2 else if categoryId == "3" then 3
        else if categoryId == "4" then 4 else if categoryId == "5" then 5 else if categoryId == "6" then 6
        else if categoryId == "7" then 7 else 8;
      assert categoryId == NatToString(n);
    }
  }

  /** A product as this page knows it. */
  datatype Item = Item(id: int, name: string, price: real, rating: real, image: string, inStock: bool)

  const MockImage1: string := "https://images.unsplash.com/photo-1523275335684-37898b6baf30?w=300&h=300&fit=crop"
  const MockImage2: string := "https://images.unsplash.com/photo-1526170375885-4d8ecf77b99f?w=300&h=300&fit=crop"
  const MockImage3: string := "https://images.unsplash.com/photo-1572635196237-14b3f281503f?w=300&h=300&fit=crop"
  const MockImage4: string := "https://images.unsplash.com/photo-1560472354-b33ff0c44a43?w=300&h=300&fit=crop"
  const MockImage5: string := "https://images.unsplash.com/photo-1542291026-7eec264c27ff?w=300&h=300&fit=crop"
  const MockImage6: string := "https://images.unsplash.com/photo-1629198688000-71f23e745b6e?w=300&h=300&fit=crop"

  /** The timer's `mockProducts`, the same for every category. */
  const MockProducts: seq<Item> := [
    Item(1, "Product 1", 29.99, 4.5, MockImage1, true),
    Item(2, "Product 2", 49.99, 4.2, MockImage2, true),
    Item(3, "Product 3", 19.99, 4.8, MockImage3, false),
    Item(4, "Product 4", 79.99, 4.1, MockImage4, true),
    Item(5, "Product 5", 34.99, 4.6, MockImage5, true),
    Item(6, "Product 6", 59.99, 4.3, MockImage6, true)
  ]

  function ItemPrice(p: Item): real { p.price }
  function ItemRating(p: Item): real { p.rating }
  function ItemName(p: Item): string { p.name }

  /** `sortedProducts`: a sorted copy; price-low, price-high and rating compare
      numbers, and every other key (the initial 'name' among them) compares names. */
  function SortItems(s: seq<Item>, sortBy: string): (r: seq<Item>)
    ensures |r| == |s| && multiset(r) == multiset(s)
  {
    if sortBy == "price-low" then SortBy(s, ItemPrice, RealAsc)
    else if sortBy == "price-high" then SortBy(s, ItemPrice, RealDesc)
    else if sortBy == "rating" then SortBy(s, ItemRating, RealDesc)
    else SortBy(s, ItemName, StrAsc)
  }

  /** Each key orders the copy: prices ascending or descending, ratings
      descending, otherwise names in ascending code-point order. */
  lemma SortItemsOrdered(s: seq<Item>, sortBy: string)
    ensures var r := SortItems(s, sortBy);
      && (sortBy == "price-low" ==> forall i, j :: 0 <= i < j < |r| ==> r[i].price <= r[j].price)
      && (sortBy == "price-high" ==> forall i, j :: 0 <= i < j < |r| ==> r[i].price >= r[j].price)
      && (sortBy == "rating" ==> forall i, j :: 0 <= i < j < |r| ==> r[i].rating >= r[j].rating)
      && (sortBy != "price-low" && sortBy != "price-high" && sortBy != "rating" ==>
            forall i, j :: 0 <= i < j < |r| ==> !StrLt(r[j].name, r[i].name))
  {
    NumericOrders();
    StrAscTotal();
    if sortBy == "price-low" {
      SortBySorted(s, ItemPrice, RealAsc);
    } else if sortBy == "price-high" {
      SortBySorted(s, ItemPrice, RealDesc);
    } else if sortBy == "rating" {
      SortBySorted(s, ItemRating, RealDesc);
    } else {
      SortBySorted(s, ItemName, StrAsc);
    }
  }

  function InStock(p: Item): bool { p.inStock }
  function OutOfStock(p: Item): bool { !p.inStock }

  /** `filteredProducts`: 'in-stock' and 'out-of-stock' keep the matching
      items in order; any other choice ('all') keeps the list whole. */
  function StockFilter(s: seq<Item>, filterBy: string): (r: seq<Item>)
    ensures IsSubseq(r, s)
    ensures filterBy == "in-stock" ==> forall p :: p in r <==> p in s && p.inStock
    ensures filterBy == "out-of-stock" ==> forall p :: p in r <==> p in s && !p.inStock
    ensures filterBy != "in-stock" && filterBy != "out-of-stock" ==> r == s
  {
    if filterBy == "in-stock" then Filter(s, InStock)
    else if filterBy == "out-of-stock" then Filter(s, OutOfStock)
    else
      PrefixSubseq(s, |s|);
      assert s[..|s|] == s;
      s
  }

  /** The two stock choices split the list: together they hold every item of
      it exactly as often as the list does. */
  lemma StockPartition(s: seq<Item>)
    ensures multiset(StockFilter(s, "in-stock")) + multiset(StockFilter(s, "out-of-stock")) == multiset(s)
    ensures |StockFilter(s, "in-stock")| + |StockFilter(s, "out-of-stock")| == |s|
  {
    FilterSplit(s, InStock, OutOfStock);
  }

  /** What the page renders: the not-found panel, or the category with its products. */
  datatype Screen = NotFound | Listing(category: CategoryInfo, items: seq<Item>)

  function View(categoryId: string, products: seq<Item>, sortBy: string, filterBy: string): (r: Screen)
    ensures r.NotFound? <==> categoryId !in CategoryTable
    ensures r.Listing? ==> r.category == CategoryTable[categoryId]
    ensures r.Listing? ==> forall p :: p in r.items ==> p in products
    ensures r.Listing? && filterBy != "in-stock" && filterBy != "out-of-stock" ==>
      multiset(r.items) == multiset(products)
  {
    match CurrentCategory(categoryId)
    case None => NotFound
    case Some(c) =>
      var sorted := SortItems(products, sortBy);
      var shown := StockFilter(sorted, filterBy);
      assert forall p :: p in shown ==> p in multiset(sorted);
      Listing(c, shown)
  }
}
