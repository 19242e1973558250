/** The catalogue page (src/pages/CatalogPage.tsx): the shipped product and
    category lists, the category/search filter, the sort-by comparator
    applied to a copy of the filtered list, and the Clear Filters reset.
    Prices are integer cents. */
module CatalogPage {
  import opened Text
  import opened Sequences

  datatype Product = Product(id: string, name: string, price: int, image: string)

  /** The eight products the page ships with (prices in cents). */
  const MockProducts: seq<Product> := [
    Product("1", "Cosmic Explorer Hoodie", 5999, "https://images.pexels.com/photos/6311392/pexels-photo-6311392.jpeg"),
    Product("2", "Neon Tiger T-Shirt", 3499, "https://images.pexels.com/photos/1926769/pexels-photo-1926769.jpeg"),
    Product("3", "Synthwave Dreams Hoodie", 6499, "https://images.pexels.com/photos/5698851/pexels-photo-5698851.jpeg"),
    Product("4", "Cyberpunk City Sweatshirt", 4999, "https://images.pexels.com/photos/2529148/pexels-photo-2529148.jpeg"),
    Product("5", "Digital Forest T-Shirt", 3299, "https://images.pexels.com/photos/1656684/pexels-photo-1656684.jpeg"),
    Product("6", "Abstract Waves Hoodie", 5899, "https://images.pexels.com/photos/7679725/pexels-photo-7679725.jpeg"),
    Product("7", "Circuit Board Sweatshirt", 5499, "https://images.pexels.com/photos/1124589/pexels-photo-1124589.jpeg"),
    Product("8", "Glitch Art Hoodie", 6299, "https://images.pexels.com/photos/2466756/pexels-photo-2466756.jpeg")
  ]

  datatype Category = Category(id: string, name: string)

  /** The category pills; the first one, 'all', switches the category test off. */
  const Categories: seq<Category> := [
    Category("all", "All Products"),
    Category("hoodies", "Hoodies"),
    Category("tshirts", "T-Shirts"),
    Category("sweatshirts", "Sweatshirts"),
    Category("accessories", "Accessories")
  ]

  /** The category test: 'all', or the lowered name includes the lowered id. */
  predicate MatchesCategory(p: Product, category: string): (b: bool)
    ensures b <==> category == "all" || exists k: nat :: OccursAt(Lower(p.name), Lower(category), k)
  {
    IncludesIsSlice(Lower(p.name), Lower(category));
    category == "all" || Includes(Lower(p.name), Lower(category))
  }

  /** The search test: an empty query, or the lowered name includes it. */
  predicate MatchesSearch(p: Product, query: string): (b: bool)
    ensures b <==> query == "" || exists k: nat :: OccursAt(Lower(p.name), Lower(query), k)
  {
    IncludesIsSlice(Lower(p.name), Lower(query));
    query == "" || Includes(Lower(p.name), Lower(query))
  }

  /** `filteredProducts`: the products passing both tests, in catalogue
      order; nothing is added or reordered. */
  function FilterProducts(products: seq<Product>, category: string, query: string): (r: seq<Product>)
    ensures forall p :: p in r <==> p in products && MatchesCategory(p, category) && MatchesSearch(p, query)
    ensures IsSubsequence(r, products)
  {
    var keep := (p: Product) => MatchesCategory(p, category) && MatchesSearch(p, query);
    FilterIsSubsequence(products, keep);
    Filter(products, keep)
  }

  /** The sort keys the select offers. */
  predicate IsSortKey(sortBy: string)
  {
    sortBy == "price-asc" || sortBy == "price-desc" || sortBy == "name-asc" || sortBy == "name-desc"
  }

  /** The comparator handed to `sort`: price difference, name comparison,
      or 0 for 'featured' and any other key. */
  function Compare(sortBy: string, a: Product, b: Product): (r: int)
    ensures sortBy == "price-asc" ==> (r <= 0 <==> a.price <= b.price)
    ensures sortBy == "price-desc" ==> (r <= 0 <==> a.price >= b.price)
    ensures sortBy == "name-asc" || sortBy == "name-desc" ==> (r == 0 <==> a.name == b.name)
    ensures !IsSortKey(sortBy) ==> r == 0
  {
    if sortBy == "price-asc" then a.price - b.price
    else if sortBy == "price-desc" then b.price - a.price
    else if sortBy == "name-asc" then CompareStrings(a.name, b.name)
    else if sortBy == "name-desc" then CompareStrings(b.name, a.name)
    else 0
  }

  function Comparator(sortBy: string): (Product, Product) -> int
  {
    (a: Product, b: Product) => Compare(sortBy, a, b)
  }

  /** `sortedProducts`: a stable sort of a copy of the filtered list; the
      result is a permutation of its input. */
  function SortProducts(products: seq<Product>, sortBy: string): (r: seq<Product>)
    ensures multiset(r) == multiset(products)
  {
    Sort(products, Comparator(sortBy))
  }

  /** Every sort key's comparator is a total preorder, so the stable sort
      really orders the list. */
  lemma ComparatorIsTotalPreorder(sortBy: string)
    ensures TotalPreorder(Comparator(sortBy))
  {
    var cmp := Comparator(sortBy);
    forall a: Product, b: Product
      ensures cmp(a, b) <= 0 || cmp(b, a) <= 0
    {
      CompareStringsAntisymmetric(a.name, b.name);
    }
    forall a: Product, b: Product, c: Product | cmp(a, b) <= 0 && cmp(b, c) <= 0
      ensures cmp(a, c) <= 0
    {
      if sortBy == "name-asc" {
        CompareStringsTransitive(a.name, b.name, c.name);
      } else if sortBy == "name-desc" {
        CompareStringsTransitive(c.name, b.name, a.name);
      }
    }
  }

  /** 'price-asc' lists prices from low to high. */
  lemma PriceAscNonDecreasing(products: seq<Product>)
    ensures var r := SortProducts(products, "price-asc");
      forall i, j :: 0 <= i < j < |r| ==> r[i].price <= r[j].price
  {
    ComparatorIsTotalPreorder("price-asc");
    SortSorted(products, Comparator("price-asc"));
  }

  /** 'price-desc' lists prices from high to low. */
  lemma PriceDescNonIncreasing(products: seq<Product>)
    ensures var r := SortProducts(products, "price-desc");
      forall i, j :: 0 <= i < j < |r| ==> r[i].price >= r[j].price
  {
    ComparatorIsTotalPreorder("price-desc");
    SortSorted(products, Comparator("price-desc"));
  }

  /** 'name-asc' lists names from A to Z. */
  lemma NameAscOrdered(products: seq<Product>)
    ensures var r := SortProducts(products, "name-asc");
      forall i, j :: 0 <= i < j < |r| ==> CompareStrings(r[i].name, r[j].name) <= 0
  {
    ComparatorIsTotalPreorder("name-asc");
    SortSorted(products, Comparator("name-asc"));
  }

  /** 'name-desc' lists names from Z to A. */
  lemma NameDescOrdered(products: seq<Product>)
    ensures var r := SortProducts(products, "name-desc");
      forall i, j :: 0 <= i < j < |r| ==> CompareStrings(r[j].name, r[i].name) <= 0
  {
    ComparatorIsTotalPreorder("name-desc");
    SortSorted(products, Comparator("name-desc"));
  }

  /** 'featured', or any key the select does not offer, compares everything
      equal, so the stable sort leaves the filtered order as it was. */
  lemma UnrecognisedKeyKeepsOrder(products: seq<Product>, sortBy: string)
    requires !IsSortKey(sortBy)
    ensures SortProducts(products, sortBy) == products
  {
    SortKeepsSortedInput(products, Comparator(sortBy));
  }

  /** Products the sort ranks level with k (same price under a price key,
      same name under a name key, everything under any other key) keep
      their filtered order in the grid. */
  lemma SortKeepsTiesInOrder(products: seq<Product>, sortBy: string, k: Product)
    ensures Filter(SortProducts(products, sortBy), SameRank(Comparator(sortBy), k)) ==
      Filter(products, SameRank(Comparator(sortBy), k))
  {
    ComparatorIsTotalPreorder(sortBy);
    SortStable(products, Comparator(sortBy), k);
  }

  /** The products priced like k. */
  function PricedAs(k: Product): Product -> bool
  {
    (p: Product) => p.price == k.price
  }

  /** Under either price key, products with equal prices appear in the grid
      in the order the filter left them. */
  lemma PriceTiesKeepOrder(products: seq<Product>, sortBy: string, k: Product)
    requires sortBy == "price-asc" || sortBy == "price-desc"
    ensures Filter(SortProducts(products, sortBy), PricedAs(k)) == Filter(products, PricedAs(k))
  {
    var rank := SameRank(Comparator(sortBy), k);
    assert forall x :: rank(x) == PricedAs(k)(x);
    SortKeepsTiesInOrder(products, sortBy, k);
    FilterSameTest(SortProducts(products, sortBy), rank, PricedAs(k));
    FilterSameTest(products, rank, PricedAs(k));
  }

  /** The page's three inputs. */
  datatype Filters = Filters(category: string, sortBy: string, query: string)

  /** The inputs when the page mounts. */
  const InitialFilters: Filters := Filters("all", "featured", "")

  /** The Clear Filters button of the empty state: category back to 'all',
      query emptied, sort key untouched. */
  function ClearFilters(f: Filters): (r: Filters)
    ensures r.category == "all" && r.query == "" && r.sortBy == f.sortBy
  {
    f.(category := "all", query := "")
  }

  /** The product grid for the current inputs. */
  function Shown(f: Filters): (r: seq<Product>)
    ensures forall p :: p in r <==> p in MockProducts && MatchesCategory(p, f.category) && MatchesSearch(p, f.query)
  {
    var kept := FilterProducts(MockProducts, f.category, f.query);
    var r := SortProducts(kept, f.sortBy);
    assert forall p :: p in r <==> p in kept by {
      forall p ensures p in r <==> p in kept {
        assert p in r <==> p in multiset(r);
        assert p in kept <==> p in multiset(kept);
      }
    }
    r
  }

  /** With category 'all' and an empty query every product is kept, in order. */
  lemma NoFilterKeepsAll(products: seq<Product>)
    ensures FilterProducts(products, "all", "") == products
  {
    FilterKeepsAll(products, (p: Product) => MatchesCategory(p, "all") && MatchesSearch(p, ""));
  }

  /** Clear Filters brings back the whole catalogue, in the chosen order. */
  lemma ClearFiltersShowsWholeCatalog(f: Filters)
    ensures Shown(ClearFilters(f)) == SortProducts(MockProducts, f.sortBy)
    ensures multiset(Shown(ClearFilters(f))) == multiset(MockProducts)
  {
    NoFilterKeepsAll(MockProducts);
  }

  /** With no category, no query and the 'featured' (or an unknown) key,
      as on first render, the grid is the catalogue in its own order. */
  lemma UnfilteredFeaturedShowsCatalogOrder(f: Filters)
    requires f.category == "all" && f.query == "" && !IsSortKey(f.sortBy)
    ensures Shown(f) == MockProducts
  {
    NoFilterKeepsAll(MockProducts);
    UnrecognisedKeyKeepsOrder(MockProducts, f.sortBy);
  }

  /** The grid on first render is the catalogue in its own order. */
  lemma InitialGridIsCatalogue()
    ensures Shown(InitialFilters) == MockProducts
  {
    var f := InitialFilters;
    assert f.category == "all" && f.query == "" && f.sortBy == "featured";
    UnfilteredFeaturedShowsCatalogOrder(f);
  }

  /** s contains "ies" or "rts". */
  predicate HasPluralMarker(s: string)
  {
    Includes(s, "ies") || Includes(s, "rts")
  }

  /** A lowered product name with neither marker in it. */
  predicate NoPluralMarker(name: string)
  {
    !Includes(Lower(name), "ies") && !Includes(Lower(name), "rts")
  }

  /** Every category id other than 'all' contains "ies" or "rts" (the
      plural endings of "hoodies", "tshirts", "sweatshirts", "accessories"). */
  lemma CategoryIdsHaveMarkers()
    ensures forall k :: 1 <= k < |Categories| ==> HasPluralMarker(Lower(Categories[k].id))
  {
    assert OccursAt(Lower("hoodies"), "ies", 4);
    assert OccursAt(Lower("tshirts"), "rts", 4);
    assert OccursAt(Lower("sweatshirts"), "rts", 8);
    assert OccursAt(Lower("accessories"), "ies", 8);
    IncludesIsSlice(Lower("hoodies"), "ies");
    IncludesIsSlice(Lower("tshirts"), "rts");
    IncludesIsSlice(Lower("sweatshirts"), "rts");
    IncludesIsSlice(Lower("accessories"), "ies");
  }

  lemma NamesHaveNoMarker()
    ensures forall i :: 0 <= i < |MockProducts| ==> NoPluralMarker(MockProducts[i].name)
  {
    forall i | 0 <= i < |MockProducts|
      ensures NoPluralMarker(MockProducts[i].name)
    {
      if i == 0 { NameHasNoMarker0(); }
      else if i == 1 { NameHasNoMarker1(); }
      else if i == 2 { NameHasNoMarker2(); }
      else if i == 3 { NameHasNoMarker3(); }
      else if i == 4 { NameHasNoMarker4(); }
      else if i == 5 { NameHasNoMarker5(); }
      else if i == 6 { NameHasNoMarker6(); }
      else { NameHasNoMarker7(); }
    }
  }

  /** With the shipped data, every category pill other than 'all' empties
      the grid: the ids are plural ("hoodies", "tshirts", ...) and no
      product name includes them. */
  lemma PluralCategoryShowsNothing(k: nat, query: string)
    requires 1 <= k < |Categories|
    ensures FilterProducts(MockProducts, Categories[k].id, query) == []
  {
    var id := Categories[k].id;
    CategoryIdsHaveMarkers();
    NamesHaveNoMarker();
    forall i | 0 <= i < |MockProducts|
      ensures !MatchesCategory(MockProducts[i], id)
    {
      var name := Lower(MockProducts[i].name);
      if Includes(name, Lower(id)) {
        if Includes(Lower(id), "ies") {
          IncludesTransitive(name, Lower(id), "ies");
        } else {
          IncludesTransitive(name, Lower(id), "rts");
        }
      }
    }
    FilterKeepsNone(MockProducts, (p: Product) => MatchesCategory(p, id) && MatchesSearch(p, query));
  }

  // Each name is checked offset by offset for the two markers.

  lemma NameHasNoMarker0()
    ensures NoPluralMarker(MockProducts[0].name)
  {
    var h := Lower("Cosmic Explorer Hoodie");
    assert |h| == 22;
    assert !IncludesFrom(h, "ies", 19) && !IncludesFrom(h, "rts", 19);
    assert !IncludesFrom(h, "ies", 17) && !IncludesFrom(h, "rts", 17);
    assert !IncludesFrom(h, "ies", 15) && !IncludesFrom(h, "rts", 15);
    assert !IncludesFrom(h, "ies", 13) && !IncludesFrom(h, "rts", 13);
    assert !IncludesFrom(h, "ies", 11) && !IncludesFrom(h, "rts", 11);
    assert !IncludesFrom(h, "ies", 9) && !IncludesFrom(h, "rts", 9);
    assert !IncludesFrom(h, "ies", 7) && !IncludesFrom(h, "rts", 7);
    assert !IncludesFrom(h, "ies", 5) && !IncludesFrom(h, "rts", 5);
    assert !IncludesFrom(h, "ies", 3) && !IncludesFrom(h, "rts", 3);
    assert !IncludesFrom(h, "ies", 1) && !IncludesFrom(h, "rts", 1);
    assert !IncludesFrom(h, "ies", 0) && !IncludesFrom(h, "rts", 0);
  }

  lemma NameHasNoMarker1()
    ensures NoPluralMarker(MockProducts[1].name)
  {
    var h := Lower("Neon Tiger T-Shirt");
    assert |h| == 18;
    assert !IncludesFrom(h, "ies", 15) && !IncludesFrom(h, "rts", 15);
    assert !IncludesFrom(h, "ies", 13) && !IncludesFrom(h, "rts", 13);
    assert !IncludesFrom(h, "ies", 11) && !IncludesFrom(h, "rts", 11);
    assert !IncludesFrom(h, "ies", 9) && !IncludesFrom(h, "rts", 9);
    assert !IncludesFrom(h, "ies", 7) && !IncludesFrom(h, "rts", 7);
    assert !IncludesFrom(h, "ies", 5) && !IncludesFrom(h, "rts", 5);
    assert !IncludesFrom(h, "ies", 3) && !IncludesFrom(h, "rts", 3);
    assert !IncludesFrom(h, "ies", 1) && !IncludesFrom(h, "rts", 1);
    assert !IncludesFrom(h, "ies", 0) && !IncludesFrom(h, "rts", 0);
  }

  lemma NameHasNoMarker2()
    ensures NoPluralMarker(MockProducts[2].name)
  {
    var h := Lower("Synthwave Dreams Hoodie");
    assert |h| == 23;
    assert !IncludesFrom(h, "ies", 20) && !IncludesFrom(h, "rts", 20);
    assert !IncludesFrom(h, "ies", 18) && !IncludesFrom(h, "rts", 18);
    assert !IncludesFrom(h, "ies", 16) && !IncludesFrom(h, "rts", 16);
    assert !IncludesFrom(h, "ies", 14) && !IncludesFrom(h, "rts", 14);
    assert !IncludesFrom(h, "ies", 12) && !IncludesFrom(h, "rts", 12);
    assert !IncludesFrom(h, "ies", 10) && !IncludesFrom(h, "rts", 10);
    assert !IncludesFrom(h, "ies", 8) && !IncludesFrom(h, "rts", 8);
    assert !IncludesFrom(h, "ies", 6) && !IncludesFrom(h, "rts", 6);
    assert !IncludesFrom(h, "ies", 4) && !IncludesFrom(h, "rts", 4);
    assert !IncludesFrom(h, "ies", 2) && !IncludesFrom(h, "rts", 2);
    assert !IncludesFrom(h, "ies", 0) && !IncludesFrom(h, "rts", 0);
  }

  lemma NameHasNoMarker3()
    ensures NoPluralMarker(MockProducts[3].name)
  {
    var h := Lower("Cyberpunk City Sweatshirt");
    assert |h| == 25;
    assert !IncludesFrom(h, "ies", 22) && !IncludesFrom(h, "rts", 22);
    assert !IncludesFrom(h, "ies", 20) && !IncludesFrom(h, "rts", 20);
    assert !IncludesFrom(h, "ies", 18) && !IncludesFrom(h, "rts", 18);
    assert !IncludesFrom(h, "ies", 16) && !IncludesFrom(h, "rts", 16);
    assert !IncludesFrom(h, "ies", 14) && !IncludesFrom(h, "rts", 14);
    assert !IncludesFrom(h, "ies", 12) && !IncludesFrom(h, "rts", 12);
    assert !IncludesFrom(h, "ies", 10) && !IncludesFrom(h, "rts", 10);
    assert !IncludesFrom(h, "ies", 8) && !IncludesFrom(h, "rts", 8);
    assert !IncludesFrom(h, "ies", 6) && !IncludesFrom(h, "rts", 6);
    assert !IncludesFrom(h, "ies", 4) && !IncludesFrom(h, "rts", 4);
    assert !IncludesFrom(h, "ies", 2) && !IncludesFrom(h, "rts", 2);
    assert !IncludesFrom(h, "ies", 0) && !IncludesFrom(h, "rts", 0);
  }

  lemma NameHasNoMarker4()
    ensures NoPluralMarker(MockProducts[4].name)
  {
    var h := Lower("Digital Forest T-Shirt");
    assert |h| == 22;
    assert !IncludesFrom(h, "ies", 19) && !IncludesFrom(h, "rts", 19);
    assert !IncludesFrom(h, "ies", 17) && !IncludesFrom(h, "rts", 17);
    assert !IncludesFrom(h, "ies", 15) && !IncludesFrom(h, "rts", 15);
    assert !IncludesFrom(h, "ies", 13) && !IncludesFrom(h, "rts", 13);
    assert !IncludesFrom(h, "ies", 11) && !IncludesFrom(h, "rts", 11);
    assert !IncludesFrom(h, "ies", 9) && !IncludesFrom(h, "rts", 9);
    assert !IncludesFrom(h, "ies", 7) && !IncludesFrom(h, "rts", 7);
    assert !IncludesFrom(h, "ies", 5) && !IncludesFrom(h, "rts", 5);
    assert !IncludesFrom(h, "ies", 3) && !IncludesFrom(h, "rts", 3);
    assert !IncludesFrom(h, "ies", 1) && !IncludesFrom(h, "rts", 1);
    assert !IncludesFrom(h, "ies", 0) && !IncludesFrom(h, "rts", 0);
  }

  lemma NameHasNoMarker5()
    ensures NoPluralMarker(MockProducts[5].name)
  {
    var h := Lower("Abstract Waves Hoodie");
    assert |h| == 21;
    assert !IncludesFrom(h, "ies", 18) && !IncludesFrom(h, "rts", 18);
    assert !IncludesFrom(h, "ies", 16) && !IncludesFrom(h, "rts", 16);
    assert !IncludesFrom(h, "ies", 14) && !IncludesFrom(h, "rts", 14);
    assert !IncludesFrom(h, "ies", 12) && !IncludesFrom(h, "rts", 12);
    assert !IncludesFrom(h, "ies", 10) && !IncludesFrom(h, "rts", 10);
    assert !IncludesFrom(h, "ies", 8) && !IncludesFrom(h, "rts", 8);
    assert !IncludesFrom(h, "ies", 6) && !IncludesFrom(h, "rts", 6);
    assert !IncludesFrom(h, "ies", 4) && !IncludesFrom(h, "rts", 4);
    assert !IncludesFrom(h, "ies", 2) && !IncludesFrom(h, "rts", 2);
    assert !IncludesFrom(h, "ies", 0) && !IncludesFrom(h, "rts", 0);
  }

  lemma NameHasNoMarker6()
    ensures NoPluralMarker(MockProducts[6].name)
  {
    var h := Lower("Circuit Board Sweatshirt");
    assert |h| == 24;
    assert !IncludesFrom(h, "ies", 21) && !IncludesFrom(h, "rts", 21);
    assert !IncludesFrom(h, "ies", 19) && !IncludesFrom(h, "rts", 19);
    assert !IncludesFrom(h, "ies", 17) && !IncludesFrom(h, "rts", 17);
    assert !IncludesFrom(h, "ies", 15) && !IncludesFrom(h, "rts", 15);
    assert !IncludesFrom(h, "ies", 13) && !IncludesFrom(h, "rts", 13);
    assert !IncludesFrom(h, "ies", 11) && !IncludesFrom(h, "rts", 11);
    assert !IncludesFrom(h, "ies", 9) && !IncludesFrom(h, "rts", 9);
    assert !IncludesFrom(h, "ies", 7) && !IncludesFrom(h, "rts", 7);
    assert !IncludesFrom(h, "ies", 5) && !IncludesFrom(h, "rts", 5);
    assert !IncludesFrom(h, "ies", 3) && !IncludesFrom(h, "rts", 3);
    assert !IncludesFrom(h, "ies", 1) && !IncludesFrom(h, "rts", 1);
    assert !IncludesFrom(h, "ies", 0) && !IncludesFrom(h, "rts", 0);
  }

  lemma NameHasNoMarker7()
    ensures NoPluralMarker(MockProducts[7].name)
  {
    var h := Lower("Glitch Art Hoodie");
    assert |h| == 17;
    assert !IncludesFrom(h, "ies", 14) && !IncludesFrom(h, "rts", 14);
    assert !IncludesFrom(h, "ies", 12) && !IncludesFrom(h, "rts", 12);
    assert !IncludesFrom(h, "ies", 10) && !IncludesFrom(h, "rts", 10);
    assert !IncludesFrom(h, "ies", 8) && !IncludesFrom(h, "rts", 8);
    assert !IncludesFrom(h, "ies", 6) && !IncludesFrom(h, "rts", 6);
    assert !IncludesFrom(h, "ies", 4) && !IncludesFrom(h, "rts", 4);
    assert !IncludesFrom(h, "ies", 2) && !IncludesFrom(h, "rts", 2);
    assert !IncludesFrom(h, "ies", 0) && !IncludesFrom(h, "rts", 0);
  }
}
