/** The deals store (src/contexts/DealsContext.jsx): four sample deals, the
    filter-and-sort routine that writes `filteredDeals`, and the featured
    strip. The deals' expiry times are computed from the clock when the
    module loads; that instant is the parameter `loadTime` (milliseconds). */
module DealsContext {
  import opened Seqs
  import opened Sorting

  datatype Deal = Deal(
    id: int, title: string, originalPrice: real, discountedPrice: real,
    discountPercentage: real, category: string, image: string, expiresAt: int, featured: bool)

  const DealImage1: string := "https://images.unsplash.com/photo-1505740420928-5e560c06d30e?ixlib=rb-4.0.3&ixid=M3wxMjA3fDB8MHxwaG90by1wYWdlfHx8fGVufDB8fHx8fA%3D%3D&auto=format&fit=crop&w=1000&q=80"
  const DealImage2: string := "https://images.unsplash.com/photo-1523275335684-37898b6baf30?ixlib=rb-4.0.3&ixid=M3wxMjA3fDB8MHxwaG90by1wYWdlfHx8fGVufDB8fHx8fA%3D%3D&auto=format&fit=crop&w=1000&q=80"
  const DealImage3: string := "https://images.unsplash.com/photo-1572635196237-14b3f281503f?ixlib=rb-4.0.3&ixid=M3wxMjA3fDB8MHxwaG90by1wYWdlfHx8fGVufDB8fHx8fA%3D%3D&auto=format&fit=crop&w=1000&q=80"
  const DealImage4: string := "https://images.unsplash.com/photo-1556228720-195a672e8a03?ixlib=rb-4.0.3&ixid=M3wxMjA3fDB8MHxwaG90by1wYWdlfHx8fGVufDB8fHx8fA%3D%3D&auto=format&fit=crop&w=1000&q=80"

  const DayMs: int := 24 * 60 * 60 * 1000

  function SampleDeals(loadTime: int): (r: seq<Deal>)
    ensures |r| == 4
    ensures forall i :: 0 <= i < |r| ==> r[i].id == i + 1 && r[i].expiresAt > loadTime
  {
    [
      Deal(1, "Premium Wireless Headphones", 299.99, 199.99, 33.0, "Electronics",
        DealImage1,
        loadTime + 7 * DayMs, true),
      Deal(2, "Smart Fitness Watch", 249.99, 149.99, 40.0, "Electronics",
        DealImage2,
        loadTime + 5 * DayMs, true),
      Deal(3, "Designer Sunglasses", 159.99, 79.99, 50.0, "Fashion",
        DealImage3,
        loadTime + 3 * DayMs, false),
      Deal(4, "Organic Skincare Set", 89.99, 54.99, 39.0, "Beauty",
        DealImage4,
        loadTime + 10 * DayMs, true)
    ]
  }

  /** `b.featured - a.featured` compares `true` as 1 and `false` as 0. */
  function FeaturedRank(d: Deal): int { if d.featured then 1 else 0 }
  function DiscountOf(d: Deal): real { d.discountPercentage }
  function PriceOf(d: Deal): real { d.discountedPrice }

  /** The sort keys with a comparator; any other key leaves the order alone. */
  predicate KnownSort(sortBy: string)
  {
    sortBy == "featured" || sortBy == "discount" || sortBy == "price"
  }

  /** The stable sort chosen by `sortBy`: featured deals first, discount
      descending, or discounted price ascending. */
  function SortDeals(s: seq<Deal>, sortBy: string): (r: seq<Deal>)
    ensures |r| == |s| && multiset(r) == multiset(s)
    ensures !KnownSort(sortBy) ==> r == s
  {
    if sortBy == "featured" then SortBy(s, FeaturedRank, IntDesc)
    else if sortBy == "discount" then SortBy(s, DiscountOf, RealDesc)
    else if sortBy == "price" then SortBy(s, PriceOf, RealAsc)
    else s
  }

  /** Each key orders its output: every featured deal precedes every
      non-featured one; discounts do not increase; prices do not decrease. */
  lemma SortDealsOrdered(s: seq<Deal>, sortBy: string)
    ensures var r := SortDeals(s, sortBy);
      && (sortBy == "featured" ==> forall i, j :: 0 <= i < j < |r| && r[j].featured ==> r[i].featured)
      && (sortBy == "discount" ==> forall i, j :: 0 <= i < j < |r| ==> r[i].discountPercentage >= r[j].discountPercentage)
      && (sortBy == "price" ==> forall i, j :: 0 <= i < j < |r| ==> r[i].discountedPrice <= r[j].discountedPrice)
  {
    NumericOrders();
    if sortBy == "featured" {
      SortBySorted(s, FeaturedRank, IntDesc);
    } else if sortBy == "discount" {
      SortBySorted(s, DiscountOf, RealDesc);
    } else if sortBy == "price" {
      SortBySorted(s, PriceOf, RealAsc);
    }
  }

  /** Under the 'featured' key, the featured deals keep their relative order,
      and so do the others. */
  lemma SortFeaturedStable(s: seq<Deal>)
    ensures KeyClass(SortDeals(s, "featured"), FeaturedRank, 1) == KeyClass(s, FeaturedRank, 1)
    ensures KeyClass(SortDeals(s, "featured"), FeaturedRank, 0) == KeyClass(s, FeaturedRank, 0)
  {
    NumericOrders();
    SortByStable(s, FeaturedRank, IntDesc, 1);
    SortByStable(s, FeaturedRank, IntDesc, 0);
  }

  /** The context's filter: the category matches ('All' is a wildcard) and the
      discount is at least the threshold. */
  predicate ContextMatch(category: string, discount: real, d: Deal)
  {
    (category == "All" || d.category == category) && d.discountPercentage >= discount
  }

  function ContextMatchFn(category: string, discount: real): Deal -> bool
  {
    (d: Deal) => ContextMatch(category, discount, d)
  }

  /** What `filterDeals(category, discount)` stores: the matching deals sorted by the `sortBy` state. */
  function ContextFiltered(deals: seq<Deal>, category: string, discount: real, sortBy: string): (r: seq<Deal>)
    ensures forall d :: d in r <==> d in deals && ContextMatch(category, discount, d)
    ensures forall d :: multiset(r)[d] == if ContextMatch(category, discount, d) then multiset(deals)[d] else 0
    ensures !KnownSort(sortBy) ==> IsSubseq(r, deals)
  {
    var m := Filter(deals, ContextMatchFn(category, discount));
    FilterMultiset(deals, ContextMatchFn(category, discount));
    var r := SortDeals(m, sortBy);
    assert forall d :: d in r <==> d in multiset(r);
    assert forall d :: d in m <==> d in multiset(m);
    r
  }

  function IsFeatured(d: Deal): bool { d.featured }

  /** `deals.filter(deal => deal.featured).slice(0, 3)`. */
  function FeaturedDeals(deals: seq<Deal>): (r: seq<Deal>)
    ensures |r| <= 3
    ensures forall i :: 0 <= i < |r| ==> r[i].featured
    ensures IsSubseq(r, deals)
    ensures var f := Filter(deals, IsFeatured);
      |r| == (if |f| < 3 then |f| else 3) && r == f[..|r|]
  {
    var f := Filter(deals, IsFeatured);
    var r := Slice(f, 0, 3);
    assert r == f[..|r|];
    assert forall i :: 0 <= i < |r| ==> r[i] in f;
    PrefixSubseq(f, |r|);
    SubseqTrans(r, f, deals);
    r
  }

  /** In four deals of which only the third is not featured, the featured
      strip is the other three. */
  lemma FeaturedOfFour(s: seq<Deal>)
    requires |s| == 4 && s[0].featured && s[1].featured && !s[2].featured && s[3].featured
    ensures FeaturedDeals(s) == [s[0], s[1], s[3]]
  {
    var f := FeaturedFilterOfFour(s);
    assert f[..3] == f;
  }

  /** The featured filter of such four deals, one step at a time. */
  lemma FeaturedFilterOfFour(s: seq<Deal>) returns (f: seq<Deal>)
    requires |s| == 4 && s[0].featured && s[1].featured && !s[2].featured && s[3].featured
    ensures f == [s[0], s[1], s[3]] && Filter(s, IsFeatured) == f
  {
    assert s[1..][1..] == s[2..] && s[2..][1..] == s[3..] && s[3..][1..] == [];
    FilterStep(s[3..], IsFeatured, []);
    FilterStep(s[2..], IsFeatured, [s[3]]);
    FilterStep(s[1..], IsFeatured, [s[3]]);
    FilterStep(s, IsFeatured, [s[1]] + [s[3]]);
    f := [s[0]] + ([s[1]] + [s[3]]);
    assert f == [s[0], s[1], s[3]];
  }

  /** The featured strip of the sample deals is deals 1, 2 and 4. */
  lemma SampleFeatured(loadTime: int)
    ensures var s := SampleDeals(loadTime);
      FeaturedDeals(s) == [s[0], s[1], s[3]]
  {
    var s := SampleDeals(loadTime);
    FeaturedOfFour(s);
  }

  /** The store's state: the constant deals, the stored result and the controls. */
  class DealsStore {
    const deals: seq<Deal>
    var filteredDeals: seq<Deal>
    var selectedCategory: string
    var minDiscount: real
    var sortBy: string

    constructor(loadTime: int)
      ensures deals == SampleDeals(loadTime) && filteredDeals == deals
      ensures selectedCategory == "All" && minDiscount == 0.0 && sortBy == "featured"
    {
      deals := SampleDeals(loadTime);
      filteredDeals := SampleDeals(loadTime);
      selectedCategory := "All";
      minDiscount := 0.0;
      sortBy := "featured";
    }

    /** `filterDeals(category, discount)`: filters, then sorts by the `sortBy`
        state (not by an argument), then stores the result. */
    method FilterDeals(category: string, discount: real)
      modifies this
      ensures filteredDeals == ContextFiltered(deals, category, discount, sortBy)
      ensures sortBy == old(sortBy) && selectedCategory == old(selectedCategory) && minDiscount == old(minDiscount)
    {
      var filtered := Filter(deals, ContextMatchFn(category, discount));
      if sortBy == "featured" {
        filtered := SortBy(filtered, FeaturedRank, IntDesc);
      } else if sortBy == "discount" {
        filtered := SortBy(filtered, DiscountOf, RealDesc);
      } else if sortBy == "price" {
        filtered := SortBy(filtered, PriceOf, RealAsc);
      }
      filteredDeals := filtered;
    }

    /** `getFeaturedDeals`. */
    function GetFeaturedDeals(): (r: seq<Deal>)
      reads this
      ensures |r| <= 3 && forall i :: 0 <= i < |r| ==> r[i].featured
      ensures IsSubseq(r, deals)
      ensures r == FeaturedDeals(deals)
    {
      FeaturedDeals(deals)
    }
  }
}
