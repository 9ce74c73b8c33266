/** The deals page (src/pages/Deals.jsx): its own copy of the deals filter,
    run by an effect whenever the loaded deals or a control changes, and the
    claim button that hands a deal to the cart store as a product. The remote
    fetch is left out; what it delivers is a parameter. */
module DealsPage {
  import opened Seqs
  import opened Sorting
  import opened Cart
  import opened DealsContext

  /** The page's filter: the category test applies only when the selection is
      not 'All', the discount test only when the threshold is positive. */
  predicate PageMatch(category: string, minDiscount: real, d: Deal)
  {
    (category == "All" || d.category == category) && (minDiscount > 0.0 ==> d.discountPercentage >= minDiscount)
  }

  function PageMatchFn(category: string, minDiscount: real): Deal -> bool
  {
    (d: Deal) => PageMatch(category, minDiscount, d)
  }

  function InCategory(category: string): Deal -> bool
  {
    (d: Deal) => d.category == category
  }

  function AtLeast(minDiscount: real): Deal -> bool
  {
    (d: Deal) => d.discountPercentage >= minDiscount
  }

  /** What the effect stores: the qualifying deals, sorted by the chosen key. */
  function PageFiltered(deals: seq<Deal>, category: string, minDiscount: real, sortBy: string): (r: seq<Deal>)
    ensures forall d :: d in r <==> d in deals && PageMatch(category, minDiscount, d)
    ensures forall d :: multiset(r)[d] == if PageMatch(category, minDiscount, d) then multiset(deals)[d] else 0
    ensures !KnownSort(sortBy) ==> IsSubseq(r, deals)
  {
    var m := Filter(deals, PageMatchFn(category, minDiscount));
    FilterMultiset(deals, PageMatchFn(category, minDiscount));
    var r := SortDeals(m, sortBy);
    assert forall d :: d in r <==> d in multiset(r);
    assert forall d :: d in m <==> d in multiset(m);
    r
  }

  /** The page and the deals store agree whenever the threshold is positive,
      and also at threshold 0 when no deal has a negative discount: the only
      difference is that the page skips a non-positive threshold. */
  lemma PageAgreesWithContext(deals: seq<Deal>, category: string, minDiscount: real, sortBy: string)
    requires minDiscount > 0.0 || forall i :: 0 <= i < |deals| ==> deals[i].discountPercentage >= minDiscount
    ensures PageFiltered(deals, category, minDiscount, sortBy) == ContextFiltered(deals, category, minDiscount, sortBy)
  {
    FilterExt(deals, PageMatchFn(category, minDiscount), ContextMatchFn(category, minDiscount));
  }

  /** With a negative threshold the store drops deals the page keeps: a deal
      with discount -10 passes the page at threshold -5 but not the store. */
  lemma NegativeThresholdDiffers(d: Deal)
    requires d.category == "Electronics" && d.discountPercentage == -10.0
    ensures PageFiltered([d], "All", -5.0, "featured") == [d]
    ensures ContextFiltered([d], "All", -5.0, "featured") == []
  {
    var p := PageFiltered([d], "All", -5.0, "featured");
    assert d in p;
    assert |p| == 1 by {
      assert |Filter([d], PageMatchFn("All", -5.0))| <= 1;
    }
    assert p == [p[0]];
  }

  /** `handleClaimDeal`: the product handed to the cart store. The reducer
      reads its id, name, price and image; the original price and category
      ride along unread. */
  function ClaimPayload(d: Deal): (p: Payload)
    ensures p.id == d.id && p.name == d.title && p.price == Some(d.discountedPrice) && p.image == d.image
  {
    Payload(d.id, d.title, Some(d.discountedPrice), d.image)
  }

  /** Claiming a deal not yet in the cart appends one line for it at its
      discounted price; claiming it again adds one unit to that line. */
  lemma ClaimDealAddsLine<E>(state: CartState<E>, d: Deal, now: nat)
    requires OneLinePerProduct(state.items)
    ensures var r := Reduce(state, AddToCart(ClaimPayload(d)), now).items;
      && Units(r) == Units(state.items) + 1
      && OneLinePerProduct(r)
      && (!HasProduct(state.items, d.id) ==>
            r == state.items + [r[|state.items|]] && r[|state.items|].product == d.id
            && r[|state.items|].price == Some(d.discountedPrice) && r[|state.items|].quantity == 1)
  {
    AddToCartUnits(state, ClaimPayload(d), now);
    if !HasProduct(state.items, d.id) {
      AddNew(state, ClaimPayload(d), now);
      var r := Reduce(state, AddToCart(ClaimPayload(d)), now).items;
      assert r == r[..|state.items|] + [r[|state.items|]];
    }
  }

  /** The page's state. `deals` is what the last load delivered. */
  class DealsView {
    var deals: seq<Deal>
    var filteredDeals: seq<Deal>
    var selectedCategory: string
    var minDiscount: real
    var sortBy: string

    constructor()
      ensures deals == [] && filteredDeals == []
      ensures selectedCategory == "All" && minDiscount == 0.0 && sortBy == "featured"
    {
      deals := [];
      filteredDeals := [];
      selectedCategory := "All";
      minDiscount := 0.0;
      sortBy := "featured";
    }

    /** The effect's `filterDeals`: copy, filter by category unless 'All',
        filter by discount when the threshold is positive, sort, store. */
    method Refilter()
      modifies this
      ensures filteredDeals == PageFiltered(deals, selectedCategory, minDiscount, sortBy)
      ensures deals == old(deals) && selectedCategory == old(selectedCategory)
      ensures minDiscount == old(minDiscount) && sortBy == old(sortBy)
    {
      var filtered := deals;
      if selectedCategory != "All" {
        filtered := Filter(filtered, InCategory(selectedCategory));
      }
      if minDiscount > 0.0 {
        filtered := Filter(filtered, AtLeast(minDiscount));
        if selectedCategory != "All" {
          FilterFilter(deals, InCategory(selectedCategory), AtLeast(minDiscount), PageMatchFn(selectedCategory, minDiscount));
        } else {
          FilterExt(deals, AtLeast(minDiscount), PageMatchFn(selectedCategory, minDiscount));
        }
      } else if selectedCategory != "All" {
        FilterExt(deals, InCategory(selectedCategory), PageMatchFn(selectedCategory, minDiscount));
      } else {
        FilterAll(deals, PageMatchFn(selectedCategory, minDiscount));
      }
      filtered := SortDeals(filtered, sortBy);
      filteredDeals := filtered;
    }

    /** The load effect: `setDeals(dealsData || [])`, then the filter effect. */
    method Load(dealsData: Option<seq<Deal>>)
      modifies this
      ensures deals == if dealsData.Some? then dealsData.value else []
      ensures filteredDeals == PageFiltered(deals, selectedCategory, minDiscount, sortBy)
      ensures selectedCategory == old(selectedCategory) && minDiscount == old(minDiscount) && sortBy == old(sortBy)
    {
      deals := if dealsData.Some? then dealsData.value else [];
      Refilter();
    }

    /** A category button, then the filter effect. */
    method SelectCategory(category: string)
      modifies this
      ensures selectedCategory == category
      ensures filteredDeals == PageFiltered(deals, category, minDiscount, sortBy)
      ensures deals == old(deals) && minDiscount == old(minDiscount) && sortBy == old(sortBy)
    {
      selectedCategory := category;
      Refilter();
    }

    /** The discount select, then the filter effect. */
    method SelectMinDiscount(discount: real)
      modifies this
      ensures minDiscount == discount
      ensures filteredDeals == PageFiltered(deals, selectedCategory, discount, sortBy)
      ensures deals == old(deals) && selectedCategory == old(selectedCategory) && sortBy == old(sortBy)
    {
      minDiscount := discount;
      Refilter();
    }

    /** The sort select, then the filter effect. */
    method SelectSort(key: string)
      modifies this
      ensures sortBy == key
      ensures filteredDeals == PageFiltered(deals, selectedCategory, minDiscount, key)
      ensures deals == old(deals) && selectedCategory == old(selectedCategory) && minDiscount == old(minDiscount)
    {
      sortBy := key;
      Refilter();
    }
  }
}
