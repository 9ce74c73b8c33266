/** The product store (src/contexts/ProductsContext.jsx): a constant product
    table and the favourites list of product ids with its toggle. */
module ProductsContext {
  import opened Seqs
  import opened Catalog

  /** The seven products the provider holds; the table never changes. */
  const ProductTable: seq<Product> := [
    Product(1, "Wireless Bluetooth Headphones", "Premium noise-cancelling wireless headphones with 30-hour battery life and superior sound quality.", 199.99, 249.99, "electronics", "AudioTech",
      ["One Size"], ["Black", "White", "Silver"],
      "https://images.unsplash.com/photo-1505740420928-5e560c06d30e?w=400&h=400&fit=crop",
      4.8, 342, true, ["Noise Cancelling", "Wireless", "30hr Battery"]),
    Product(2, "Premium Cotton T-Shirt", "Soft, comfortable premium cotton t-shirt perfect for everyday wear. Available in multiple colors and sizes.", 29.99, 39.99, "clothing", "ComfortWear",
      ["XS", "S", "M", "L", "XL", "XXL"], ["White", "Black", "Navy", "Gray"],
      "https://images.unsplash.com/photo-1521572163474-6864f9cf17ab?w=400&h=400&fit=crop",
      4.5, 128, true, ["100% Cotton", "Pre-shrunk", "Machine Washable"]),
    Product(3, "Smart Fitness Watch", "Advanced fitness tracking watch with heart rate monitoring, GPS, and 7-day battery life.", 299.99, 399.99, "electronics", "FitTech",
      ["38mm", "42mm"], ["Black", "Silver", "Rose Gold"],
      "https://images.unsplash.com/photo-1523275335684-37898b6baf30?w=400&h=400&fit=crop",
      4.7, 256, true, ["Heart Rate Monitor", "GPS", "Water Resistant"]),
    Product(4, "Organic Skincare Set", "Complete organic skincare routine with cleanser, toner, moisturizer, and serum for all skin types.", 89.99, 119.99, "beauty", "NaturalGlow",
      ["Full Size", "Travel Size"], ["Natural"],
      "https://images.unsplash.com/photo-1556228720-195a672e8a03?w=400&h=400&fit=crop",
      4.9, 89, true, ["Organic", "Cruelty-Free", "All Skin Types"]),
    Product(5, "Professional Camera Lens", "High-quality 50mm prime lens for professional photography with excellent low-light performance.", 599.99, 799.99, "electronics", "ProLens",
      ["One Size"], ["Black"],
      "https://images.unsplash.com/photo-1606983340126-99ab4feaa64a?w=400&h=400&fit=crop",
      4.9, 67, false, ["50mm Prime", "Low Light", "Professional Grade"]),
    Product(6, "Luxury Leather Handbag", "Handcrafted genuine leather handbag with multiple compartments and elegant design.", 249.99, 349.99, "accessories", "LuxuryStyle",
      ["Medium", "Large"], ["Brown", "Black", "Tan"],
      "https://images.unsplash.com/photo-1553062407-98eeb64c6a62?w=400&h=400&fit=crop",
      4.6, 134, true, ["Genuine Leather", "Multiple Compartments", "Handcrafted"]),
    Product(7, "Gaming Mechanical Keyboard", "RGB backlit mechanical gaming keyboard with customizable keys and ultra-responsive switches.", 129.99, 179.99, "electronics", "GameTech",
      ["One Size"], ["Black", "White"],
      "https://images.unsplash.com/photo-1587829741301-dc798b83add3?w=400&h=400&fit=crop",
      4.7, 203, true, ["RGB Backlit", "Mechanical Switches", "Customizable"])
  ]

  /** The table has seven entries with the distinct ids 1..7, in order. */
  lemma ProductTableIds()
    ensures |ProductTable| == 7
    ensures forall i :: 0 <= i < |ProductTable| ==> ProductTable[i].id == i + 1
  {
  }

  /** Every price lies within the default price range 0..1000. */
  lemma TablePricesInRange()
    ensures forall i :: 0 <= i < |ProductTable| ==> 0.0 <= ProductTable[i].price <= 1000.0
  {
    forall i | 0 <= i < |ProductTable| ensures 0.0 <= ProductTable[i].price <= 1000.0 {
      assert i < 7;
    }
  }

  function IsNot(id: int): int -> bool
  {
    (x: int) => x != id
  }

  /** `favorites.filter(id => id !== productId)`: every occurrence of `id` removed. */
  function Without(favs: seq<int>, id: int): (r: seq<int>)
    ensures id !in r
    ensures IsSubseq(r, favs)
    ensures forall x :: x != id ==> (x in r <==> x in favs)
    ensures forall x :: x != id ==> multiset(r)[x] == multiset(favs)[x]
  {
    FilterMultiset(favs, IsNot(id));
    Filter(favs, IsNot(id))
  }

  /** `toggleFavorite`: a present id is removed everywhere, an absent one appended once. */
  function Toggle(favs: seq<int>, id: int): (r: seq<int>)
    ensures id in r <==> id !in favs
    ensures forall x :: x != id ==> (x in r <==> x in favs)
    ensures Without(r, id) == Without(favs, id)
    ensures id !in favs ==> r == favs + [id]
    ensures NoDup(favs) ==> NoDup(r)
  {
    if id in favs then
      var w := Without(favs, id);
      FilterAll(w, IsNot(id));
      FilterNoDup(favs, IsNot(id));
      w
    else
      FilterSnoc(favs, id, IsNot(id));
      NoDupSnoc(favs, id);
      favs + [id]
  }

  /** Toggling an absent id twice gives the list back. */
  lemma ToggleTwiceAbsent(favs: seq<int>, id: int)
    requires id !in favs
    ensures Toggle(Toggle(favs, id), id) == favs
  {
    FilterSnoc(favs, id, IsNot(id));
    FilterAll(favs, IsNot(id));
  }

  /** Toggling a present id twice in a duplicate-free list gives back a
      duplicate-free list with the same ids, the toggled one now last. */
  lemma ToggleTwicePresent(favs: seq<int>, id: int)
    requires id in favs && NoDup(favs)
    ensures var r := Toggle(Toggle(favs, id), id);
      && NoDup(r)
      && (forall x :: x in r <==> x in favs)
      && r == Without(favs, id) + [id]
  {
  }
}
