/** The categories index (src/pages/Categories.jsx): eight categories, a
    case-insensitive name search and the link each card navigates to. */
module Categories {
  import opened Seqs
  import opened Text
  import CategoryView

  datatype Category = Category(id: nat, name: string, icon: string, count: nat, color: string, description: string)

  const CategoryList: seq<Category> := [
    Category(1, "Electronics", "Smartphone", 1240, "from-blue-500 to-cyan-500", "Latest gadgets and electronic devices"),
    Category(2, "Fashion", "Shirt", 890, "from-pink-500 to-rose-500", "Trendy clothing and accessories"),
    Category(3, "Home & Garden", "Home", 650, "from-green-500 to-emerald-500", "Everything for your home and garden"),
    Category(4, "Sports", "Dumbbell", 420, "from-orange-500 to-amber-500", "Sports equipment and fitness gear"),
    Category(5, "Books", "Book", 780, "from-purple-500 to-violet-500", "Books, magazines, and educational materials"),
    Category(6, "Health & Beauty", "Heart", 340, "from-red-500 to-pink-500", "Health, beauty, and wellness products"),
    Category(7, "Toys & Games", "Gamepad2", 560, "from-yellow-500 to-orange-500", "Fun toys and games for all ages"),
    Category(8, "Automotive", "Car", 290, "from-gray-500 to-slate-500", "Car accessories and automotive parts")
  ]

  /** The lower-cased term occurs in the lower-cased name. */
  predicate NameMatches(searchTerm: string, c: Category)
  {
    Contains(Lower(c.name), Lower(searchTerm))
  }

  function NameMatchesFn(searchTerm: string): Category -> bool
  {
    (c: Category) => NameMatches(searchTerm, c)
  }

  /** `filteredCategories`. */
  function FilteredCategories(categories: seq<Category>, searchTerm: string): (r: seq<Category>)
    ensures IsSubseq(r, categories)
    ensures forall c :: c in r <==> c in categories && NameMatches(searchTerm, c)
    ensures forall c :: multiset(r)[c] == if NameMatches(searchTerm, c) then multiset(categories)[c] else 0
  {
    FilterMultiset(categories, NameMatchesFn(searchTerm));
    Filter(categories, NameMatchesFn(searchTerm))
  }

  /** An empty term keeps every category, in order. */
  lemma EmptyTermKeepsAll(categories: seq<Category>)
    ensures FilteredCategories(categories, "") == categories
  {
    forall i | 0 <= i < |categories| ensures NameMatchesFn("")(categories[i]) {
      ContainsEmpty(Lower(categories[i].name));
    }
    FilterAll(categories, NameMatchesFn(""));
  }

  /** So the page opens on all eight categories. */
  lemma InitialShowsEight()
    ensures FilteredCategories(CategoryList, "") == CategoryList && |CategoryList| == 8
  {
    EmptyTermKeepsAll(CategoryList);
  }

  /** `handleCategoryClick`: the path `/category/<id>`. */
  function CategoryPath(c: Category): (r: string)
    ensures |r| > 10 && r[..10] == "/category/" && r[10..] == NatToString(c.id)
  {
    "/category/" + NatToString(c.id)
  }

  /** Every card's id, written as its path writes it, resolves on the category
      page to an entry of the same name. */
  lemma EveryCategoryResolves(i: nat)
    requires i < |CategoryList|
    ensures var c := CategoryList[i];
      && CategoryPath(c)[10..] in CategoryView.CategoryTable
      && CategoryView.CategoryTable[CategoryPath(c)[10..]].name == c.name
  {
    var c := CategoryList[i];
    assert c.id == i + 1;
    assert NatToString(1) == "1" && NatToString(2) == "2" && NatToString(3) == "3" && NatToString(4) == "4";
    assert NatToString(5) == "5" && NatToString(6) == "6" && NatToString(7) == "7" && NatToString(8) == "8";
  }
}
