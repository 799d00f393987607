/** The storefront's category page: the category read from the URL, the brand list and
    price range shown beside the products, and the brand, price and order filters. */
module CategoryPage {
  import opened Wrappers
  import opened JsText
  import opened JsValue
  import MockProducts

  type Product = MockProducts.Product

  // ---------------------------------------------------------------------------------
  // The category in the URL.

  /** `word.charAt(0).toUpperCase() + word.slice(1).toLowerCase()`: the first letter
      upper-cased, the rest lower-cased; ignoring case, the word is unchanged. */
  function Capitalize(word: string): (r: string)
    ensures |r| == |word|
    ensures word != [] ==> !IsLowerLetter(r[0]) && forall i :: 1 <= i < |r| ==> !IsUpperLetter(r[i])
    ensures ToLower(r) == ToLower(word)
  {
    if word == [] then []
    else
      ToLowerAppend([UpperChar(word[0])], ToLower(word[1..]));
      ToLowerAppend([word[0]], word[1..]);
      assert [word[0]] + word[1..] == word;
      [UpperChar(word[0])] + ToLower(word[1..])
  }

  /** `words.map(capitalize)`. */
  function Capitalized(words: seq<string>): (r: seq<string>)
    ensures |r| == |words|
    ensures forall i :: 0 <= i < |r| ==> r[i] == Capitalize(words[i])
  {
    seq(|words|, i requires 0 <= i < |words| => Capitalize(words[i]))
  }

  /** The parameter split on `-`, each word capitalised, joined with spaces. */
  function NormalizeCategory(param: string): string
  {
    Join(Capitalized(Split(param, '-')), ' ')
  }

  /** Ignoring case, normalising only turns each `-` into a space. */
  lemma NormalizeCategoryLower(param: string)
    ensures ToLower(NormalizeCategory(param)) == ToLower(ReplaceChar(param, '-', ' '))
  {
    CapitalizedJoinLower(Split(param, '-'));
    JoinSplit(param, '-', ' ');
  }

  lemma {:induction false} CapitalizedJoinLower(words: seq<string>)
    ensures ToLower(Join(Capitalized(words), ' ')) == ToLower(Join(words, ' '))
    decreases |words|
  {
    var c := Capitalized(words);
    if |words| > 1 {
      CapitalizedJoinLower(words[1..]);
      assert c[1..] == Capitalized(words[1..]);
      ToLowerAppend(c[0] + [' '], Join(c[1..], ' '));
      ToLowerAppend(c[0], [' ']);
      ToLowerAppend(words[0] + [' '], Join(words[1..], ' '));
      ToLowerAppend(words[0], [' ']);
    }
  }

  /** The find predicate: the category equals the normalised or the raw parameter,
      ignoring case. */
  predicate Matches(category: string, normalized: string, param: string)
  {
    ToLower(category) == ToLower(normalized) || ToLower(category) == ToLower(param)
  }

  /** `categories.find(...)`: the first category that matches. */
  function FindCategory(categories: seq<string>, normalized: string, param: string): (r: Option<string>)
    ensures r.Some? ==> r.value in categories && Matches(r.value, normalized, param)
    ensures r.Some? ==> forall i :: 0 <= i < |categories| && categories[i] != r.value ==>
                          !Matches(categories[i], normalized, param) || r.value in categories[..i]
    ensures r.None? ==> forall c :: c in categories ==> !Matches(c, normalized, param)
  {
    if categories == [] then None
    else if Matches(categories[0], normalized, param) then Some(categories[0])
    else
      var r := FindCategory(categories[1..], normalized, param);
      assert forall i :: 1 <= i <= |categories| ==> categories[1..][..i - 1] == categories[1..i];
      r
  }

  /** The banner shown above a category's products. */
  datatype Banner = Banner(title: string, features: seq<string>)

  /** `categoryBanners[category]`. */
  function BannerFor(category: string): (r: Option<Banner>)
    ensures r.Some? <==> category in MockProducts.Categories
  {
    if category == MockProducts.Speakers then
      Some(Banner("Premium Speakers", ["360° Sound", "Waterproof", "Long Battery Life", "Premium Brands"]))
    else if category == MockProducts.Watches then
      Some(Banner("Smart Watches", ["Health Tracking", "Fitness Monitoring", "Long Battery", "Premium Design"]))
    else if category == MockProducts.Headphones then
      Some(Banner("Premium Headphones", ["Noise Cancelling", "Hi-Res Audio", "Long Battery", "Premium Comfort"]))
    else None
  }

  /** The category the page shows for a URL parameter (`''` stands for a missing one):
      the matching category when it has a banner, otherwise none. */
  function Resolve(param: string): Option<string>
  {
    if param == "" then None
    else match FindCategory(MockProducts.Categories, NormalizeCategory(param), param)
      case Some(c) => if c != "" && BannerFor(c).Some? then Some(c) else None
      case None => None
  }

  /** No category name holds a space. */
  predicate NoSpace(s: string)
  {
    forall i :: 0 <= i < |s| ==> s[i] != ' '
  }

  /** For a category without spaces, matching the normalised parameter is matching the
      parameter itself: a `-` in the parameter becomes a space no category has. */
  lemma MatchesIgnoringCase(category: string, param: string)
    requires NoSpace(category)
    ensures Matches(category, NormalizeCategory(param), param) <==> ToLower(category) == ToLower(param)
  {
    NormalizeCategoryLower(param);
    var replaced := ReplaceChar(param, '-', ' ');
    if ToLower(category) == ToLower(replaced) {
      forall i | 0 <= i < |param|
        ensures param[i] != '-'
      {
        assert ToLower(replaced)[i] == ToLower(category)[i];
      }
      assert replaced == param;
    }
  }

  /** The page shows category `c` exactly when `c` is a catalogue category and the
      parameter spells it in any mix of cases; any other parameter shows no category. */
  lemma ResolveIgnoresCase(param: string, c: string)
    ensures Resolve(param) == Some(c) <==> c in MockProducts.Categories && ToLower(param) == ToLower(c)
  {
    var s, w, h := MockProducts.Speakers, MockProducts.Watches, MockProducts.Headphones;
    ResolveByCase(param);
    assert |ToLower(s)| == 8 && |ToLower(w)| == 7 && |ToLower(h)| == 10;
  }

  /** `Resolve` as a choice among the three categories, by their lower-case spelling. */
  lemma ResolveByCase(param: string)
    ensures Resolve(param) ==
              if ToLower(param) == ToLower(MockProducts.Speakers) then Some(MockProducts.Speakers)
              else if ToLower(param) == ToLower(MockProducts.Watches) then Some(MockProducts.Watches)
              else if ToLower(param) == ToLower(MockProducts.Headphones) then Some(MockProducts.Headphones)
              else None
  {
    var s, w, h := MockProducts.Speakers, MockProducts.Watches, MockProducts.Headphones;
    assert NoSpace(s) && NoSpace(w) && NoSpace(h);
    MatchesIgnoringCase(s, param);
    MatchesIgnoringCase(w, param);
    MatchesIgnoringCase(h, param);
    assert MockProducts.Categories[1..] == [w, h];
    assert MockProducts.Categories[1..][1..] == [h];
    if param == "" {
      assert |ToLower(param)| == 0;
    }
  }

  // ---------------------------------------------------------------------------------
  // The brand list and the price range.

  /** Every string is before the next in the default sort order, so none repeats. */
  predicate StrictlySorted(s: seq<string>)
  {
    forall i, j :: 0 <= i < j < |s| ==> StrLess(s[i], s[j])
  }

  /** Adding one brand to a sorted list of distinct brands. */
  function InsertBrand(s: seq<string>, b: string): (r: seq<string>)
    requires StrictlySorted(s)
    ensures StrictlySorted(r)
    ensures forall x :: x in r <==> x in s || x == b
  {
    if s == [] then [b]
    else if s[0] == b then s
    else if StrLess(b, s[0]) then
      assert forall j :: 0 <= j < |s| ==> StrLess(b, s[j]) by {
        forall j | 0 <= j < |s| ensures StrLess(b, s[j]) {
          if j > 0 { StrLessTransitive(b, s[0], s[j]); }
        }
      }
      [b] + s
    else
      StrLessTotal(b, s[0]);
      var rest := InsertBrand(s[1..], b);
      assert forall x :: x in rest ==> StrLess(s[0], x) by {
        forall x | x in rest ensures StrLess(s[0], x) {
          if x != b {
            var j :| 0 <= j < |s[1..]| && s[1..][j] == x;
            assert s[j + 1] == x;
          }
        }
      }
      [s[0]] + rest
  }

  /** `Array.from(new Set(products.map(p => p.brand))).sort()`: each brand of the
      products once, in the default sort order. */
  function AvailableBrands(ps: seq<Product>): (r: seq<string>)
    ensures StrictlySorted(r)
    ensures forall b :: b in r <==> exists i :: 0 <= i < |ps| && ps[i].brand == b
  {
    if ps == [] then []
    else
      var r := InsertBrand(AvailableBrands(ps[1..]), ps[0].brand);
      assert forall i :: 1 <= i < |ps| ==> ps[1..][i - 1] == ps[i];
      r
  }

  /** A sorted list without repeats holds each string at most once. */
  lemma StrictlySortedDistinct(s: seq<string>)
    requires StrictlySorted(s)
    ensures forall i, j :: 0 <= i < j < |s| ==> s[i] != s[j]
  {
    forall i, j | 0 <= i < j < |s| ensures s[i] != s[j] {
      StrLessIrreflexive(s[i]);
    }
  }

  /** The prices shown as the range: `{min: 0, max: 0}` without products. */
  datatype Range = Range(min: int, max: int)

  /** `Math.min(...prices)` of a non-empty list. */
  function MinPrice(ps: seq<Product>): (m: int)
    requires ps != []
    ensures exists i :: 0 <= i < |ps| && ps[i].price == m
    ensures forall i :: 0 <= i < |ps| ==> m <= ps[i].price
  {
    if |ps| == 1 then ps[0].price
    else
      var m := MinPrice(ps[1..]);
      var k :| 0 <= k < |ps[1..]| && ps[1..][k].price == m;
      assert ps[k + 1].price == m;
      assert forall i :: 1 <= i < |ps| ==> ps[i] == ps[1..][i - 1];
      if ps[0].price <= m then ps[0].price else m
  }

  /** `Math.max(...prices)` of a non-empty list. */
  function MaxPrice(ps: seq<Product>): (m: int)
    requires ps != []
    ensures exists i :: 0 <= i < |ps| && ps[i].price == m
    ensures forall i :: 0 <= i < |ps| ==> ps[i].price <= m
  {
    if |ps| == 1 then ps[0].price
    else
      var m := MaxPrice(ps[1..]);
      var k :| 0 <= k < |ps[1..]| && ps[1..][k].price == m;
      assert ps[k + 1].price == m;
      assert forall i :: 1 <= i < |ps| ==> ps[i] == ps[1..][i - 1];
      if ps[0].price >= m then ps[0].price else m
  }

  /** `priceRange`: the lowest and the highest price among the products. */
  function PriceRange(ps: seq<Product>): (r: Range)
    ensures ps == [] ==> r == Range(0, 0)
    ensures ps != [] ==> (exists i :: 0 <= i < |ps| && ps[i].price == r.min)
                         && (exists i :: 0 <= i < |ps| && ps[i].price == r.max)
    ensures forall i :: 0 <= i < |ps| ==> r.min <= ps[i].price <= r.max
  {
    if ps == [] then Range(0, 0) else Range(MinPrice(ps), MaxPrice(ps))
  }

  // ---------------------------------------------------------------------------------
  // Filtering.

  /** What a product must satisfy: one of the selected brands (any brand when none is
      selected) and a price within the bounds that are set. */
  datatype Criteria = Criteria(brands: seq<string>, min: Option<int>, max: Option<int>)

  predicate Keeps(p: Product, c: Criteria)
  {
    (c.brands == [] || p.brand in c.brands)
    && (c.min.None? || p.price >= c.min.value)
    && (c.max.None? || p.price <= c.max.value)
  }

  /** `products.filter(p => keeps(p))`. */
  function FilterBy(ps: seq<Product>, c: Criteria): (r: seq<Product>)
    ensures |r| <= |ps|
    ensures forall i :: 0 <= i < |r| ==> Keeps(r[i], c)
  {
    if ps == [] then []
    else (if Keeps(ps[0], c) then [ps[0]] else []) + FilterBy(ps[1..], c)
  }

  /** Filtering takes each product at most as often as it is listed. */
  lemma {:induction false} FilterBySubMultiset(ps: seq<Product>, c: Criteria)
    ensures multiset(FilterBy(ps, c)) <= multiset(ps)
    decreases |ps|
  {
    if ps != [] {
      FilterBySubMultiset(ps[1..], c);
      assert ps == [ps[0]] + ps[1..];
    }
  }

  /** A product is shown exactly when it is in the list and passes the criteria. */
  lemma {:induction false} FilterByMembers(ps: seq<Product>, c: Criteria)
    ensures forall p :: p in FilterBy(ps, c) <==> p in ps && Keeps(p, c)
    decreases |ps|
  {
    if ps != [] {
      FilterByMembers(ps[1..], c);
      assert ps == [ps[0]] + ps[1..];
    }
  }

  /** Filtering by one set of criteria and then another is filtering once by a set of
      criteria that asks for both. */
  lemma {:induction false} FilterByTwice(ps: seq<Product>, c1: Criteria, c2: Criteria, c: Criteria)
    requires forall p :: Keeps(p, c) <==> Keeps(p, c1) && Keeps(p, c2)
    ensures FilterBy(FilterBy(ps, c1), c2) == FilterBy(ps, c)
    decreases |ps|
  {
    if ps != [] {
      FilterByTwice(ps[1..], c1, c2, c);
      var head := if Keeps(ps[0], c1) then [ps[0]] else [];
      assert FilterBy(head + FilterBy(ps[1..], c1), c2) == FilterBy(head, c2) + FilterBy(FilterBy(ps[1..], c1), c2) by {
        FilterByAppend(head, FilterBy(ps[1..], c1), c2);
      }
      if Keeps(ps[0], c1) {
        assert FilterBy(head, c2) == if Keeps(ps[0], c2) then [ps[0]] else [];
      }
    }
  }

  lemma {:induction false} FilterByAppend(a: seq<Product>, b: seq<Product>, c: Criteria)
    ensures FilterBy(a + b, c) == FilterBy(a, c) + FilterBy(b, c)
    decreases |a|
  {
    if a != [] {
      FilterByAppend(a[1..], b, c);
      assert (a + b)[1..] == a[1..] + b;
      assert (a + b)[0] == a[0];
    } else {
      assert a + b == b;
    }
  }

  /** Two sets of criteria that keep the same products filter alike. */
  lemma {:induction false} FilterBySame(ps: seq<Product>, c1: Criteria, c2: Criteria)
    requires forall p :: Keeps(p, c1) <==> Keeps(p, c2)
    ensures FilterBy(ps, c1) == FilterBy(ps, c2)
    decreases |ps|
  {
    if ps != [] {
      FilterBySame(ps[1..], c1, c2);
    }
  }

  /** Criteria that keep everything leave the list as it is. */
  lemma {:induction false} FilterByNothing(ps: seq<Product>)
    ensures FilterBy(ps, Criteria([], None, None)) == ps
    decreases |ps|
  {
    if ps != [] {
      FilterByNothing(ps[1..]);
      assert [ps[0]] + ps[1..] == ps;
    }
  }

  /** A price box: ignored when empty, and when `parseInt` gives `NaN`. */
  function Bound(box: string): Option<int>
  {
    if box == "" then None else ParseInt(box)
  }

  /** The criteria the page's filter state sets. */
  function CriteriaOf(selectedBrands: seq<string>, minPrice: string, maxPrice: string): Criteria
  {
    Criteria(selectedBrands, Bound(minPrice), Bound(maxPrice))
  }

  // ---------------------------------------------------------------------------------
  // Sorting.

  /** The orders with a comparator of numbers: `a.price - b.price`, `b.price - a.price`,
      `b.rating - a.rating`. */
  datatype Order = PriceLow | PriceHigh | Rating

  function OrderOf(sortBy: string): Option<Order>
  {
    if sortBy == "price-low" then Some(PriceLow)
    else if sortBy == "price-high" then Some(PriceHigh)
    else if sortBy == "rating" then Some(Rating)
    else None
  }

  /** The number the comparator subtracts, negated for the descending orders, so each
      order sorts its ranks ascending. */
  function Rank(p: Product, o: Order): int
  {
    match o
    case PriceLow => p.price
    case PriceHigh => -p.price
    case Rating => -p.ratingTenths
  }

  predicate SortedBy(s: seq<Product>, o: Order)
  {
    forall i, j :: 0 <= i < j < |s| ==> Rank(s[i], o) <= Rank(s[j], o)
  }

  /** The products of rank `v`, in their order. */
  function Ties(s: seq<Product>, o: Order, v: int): seq<Product>
  {
    if s == [] then []
    else (if Rank(s[0], o) == v then [s[0]] else []) + Ties(s[1..], o, v)
  }

  /** Placing `x` before the first product that does not rank below it. */
  function Insert(x: Product, s: seq<Product>, o: Order): (r: seq<Product>)
    ensures multiset(r) == multiset(s) + multiset{x}
  {
    if s == [] || Rank(x, o) <= Rank(s[0], o) then [x] + s
    else
      assert s == [s[0]] + s[1..];
      [s[0]] + Insert(x, s[1..], o)
  }

  /** `filtered.sort(comparator)` for a comparator of numbers. */
  function Sort(s: seq<Product>, o: Order): (r: seq<Product>)
    ensures multiset(r) == multiset(s)
  {
    if s == [] then []
    else
      assert s == [s[0]] + s[1..];
      Insert(s[0], Sort(s[1..], o), o)
  }

  /** A lower bound on the ranks of `x` and of `s` bounds the ranks after inserting. */
  lemma {:induction false} InsertBounded(x: Product, s: seq<Product>, o: Order, b: int)
    requires b <= Rank(x, o) && forall j :: 0 <= j < |s| ==> b <= Rank(s[j], o)
    ensures forall j :: 0 <= j < |Insert(x, s, o)| ==> b <= Rank(Insert(x, s, o)[j], o)
    decreases |s|
  {
    if s != [] && Rank(x, o) > Rank(s[0], o) {
      InsertBounded(x, s[1..], o, b);
    }
  }

  lemma {:induction false} InsertSorted(x: Product, s: seq<Product>, o: Order)
    requires SortedBy(s, o)
    ensures SortedBy(Insert(x, s, o), o)
    decreases |s|
  {
    if s != [] && Rank(x, o) > Rank(s[0], o) {
      var rest := Insert(x, s[1..], o);
      InsertSorted(x, s[1..], o);
      InsertBounded(x, s[1..], o, Rank(s[0], o));
      assert Insert(x, s, o) == [s[0]] + rest;
    }
  }

  lemma TiesCons(x: Product, s: seq<Product>, o: Order, v: int)
    ensures Ties([x] + s, o, v) == (if Rank(x, o) == v then [x] else []) + Ties(s, o, v)
  {
    assert ([x] + s)[1..] == s;
  }

  lemma {:induction false} InsertTies(x: Product, s: seq<Product>, o: Order, v: int)
    ensures Ties(Insert(x, s, o), o, v) == (if Rank(x, o) == v then [x] else []) + Ties(s, o, v)
    decreases |s|
  {
    if s == [] || Rank(x, o) <= Rank(s[0], o) {
      TiesCons(x, s, o, v);
    } else {
      var rest := Insert(x, s[1..], o);
      InsertTies(x, s[1..], o, v);
      TiesStep(x, s[0], rest, s[1..], o, v);
      assert [s[0]] + s[1..] == s;
    }
  }

  /** Putting a product that ranks differently from `x` in front keeps `x`'s place
      among the ties. */
  lemma TiesStep(x: Product, y: Product, rest: seq<Product>, tail: seq<Product>, o: Order, v: int)
    requires Rank(x, o) != Rank(y, o)
    requires Ties(rest, o, v) == (if Rank(x, o) == v then [x] else []) + Ties(tail, o, v)
    ensures Ties([y] + rest, o, v) == (if Rank(x, o) == v then [x] else []) + Ties([y] + tail, o, v)
  {
    TiesCons(y, rest, o, v);
    TiesCons(y, tail, o, v);
    if Rank(x, o) == v {
      calc {
        Ties([y] + rest, o, v);
        [] + Ties(rest, o, v);
        [x] + Ties(tail, o, v);
        [x] + ([] + Ties(tail, o, v));
        [x] + Ties([y] + tail, o, v);
      }
    } else {
      calc {
        Ties([y] + rest, o, v);
        (if Rank(y, o) == v then [y] else []) + Ties(tail, o, v);
        Ties([y] + tail, o, v);
        [] + Ties([y] + tail, o, v);
      }
    }
  }

  /** The sort orders the products by rank. */
  lemma {:induction false} SortSorted(s: seq<Product>, o: Order)
    ensures SortedBy(Sort(s, o), o)
    decreases |s|
  {
    if s != [] {
      SortSorted(s[1..], o);
      InsertSorted(s[0], Sort(s[1..], o), o);
    }
  }

  /** The sort is stable: products of equal rank keep their order. */
  lemma {:induction false} SortStable(s: seq<Product>, o: Order, v: int)
    ensures Ties(Sort(s, o), o, v) == Ties(s, o, v)
    decreases |s|
  {
    if s != [] {
      SortStable(s[1..], o, v);
      InsertTies(s[0], Sort(s[1..], o), o, v);
    }
  }

  /** The criteria of two sets that set different parts. */
  function Combine(c1: Criteria, c2: Criteria): Criteria
  {
    Criteria(if c2.brands != [] then c2.brands else c1.brands,
             if c2.min.Some? then c2.min else c1.min,
             if c2.max.Some? then c2.max else c1.max)
  }

  lemma FilterByCombined(ps: seq<Product>, c1: Criteria, c2: Criteria)
    requires c1.brands == [] || c2.brands == []
    requires c1.min.None? || c2.min.None?
    requires c1.max.None? || c2.max.None?
    ensures FilterBy(FilterBy(ps, c1), c2) == FilterBy(ps, Combine(c1, c2))
  {
    FilterByTwice(ps, c1, c2, Combine(c1, c2));
  }

  /** The filtering half of `filteredProducts`: the brand filter when brands are
      selected, then each price bound that is set and parses. Filtering one after the
      other is filtering once by all the criteria together. */
  method ApplyFilters(allProducts: seq<Product>, selectedBrands: seq<string>, minPrice: string,
                      maxPrice: string) returns (filtered: seq<Product>)
    ensures filtered == FilterBy(allProducts, CriteriaOf(selectedBrands, minPrice, maxPrice))
  {
    var soFar := Criteria([], None, None);
    FilterByNothing(allProducts);
    filtered := allProducts;
    if |selectedBrands| > 0 {
      var step := Criteria(selectedBrands, None, None);
      FilterByCombined(allProducts, soFar, step);
      filtered := FilterBy(filtered, step);
      soFar := Combine(soFar, step);
    }
    if minPrice != "" {
      var min := ParseInt(minPrice);
      if min.Some? {
        var step := Criteria([], min, None);
        FilterByCombined(allProducts, soFar, step);
        filtered := FilterBy(filtered, step);
        soFar := Combine(soFar, step);
      }
    }
    if maxPrice != "" {
      var max := ParseInt(maxPrice);
      if max.Some? {
        var step := Criteria([], None, max);
        FilterByCombined(allProducts, soFar, step);
        filtered := FilterBy(filtered, step);
        soFar := Combine(soFar, step);
      }
    }
    assert soFar == CriteriaOf(selectedBrands, minPrice, maxPrice);
  }

  /** `filteredProducts` for the default order and the orders with a numeric
      comparator. It holds exactly the products of the category that pass the filters,
      each as often as there; the default order keeps the category's order, the others
      sort by rank and keep products of equal rank in the category's order. */
  method FilteredProducts(allProducts: seq<Product>, selectedBrands: seq<string>, minPrice: string,
                          maxPrice: string, sortBy: string) returns (filtered: seq<Product>)
    requires sortBy != "name"
    ensures forall p :: p in filtered <==> p in allProducts && Keeps(p, CriteriaOf(selectedBrands, minPrice, maxPrice))
    ensures multiset(filtered) == multiset(FilterBy(allProducts, CriteriaOf(selectedBrands, minPrice, maxPrice)))
    ensures OrderOf(sortBy).None? ==> filtered == FilterBy(allProducts, CriteriaOf(selectedBrands, minPrice, maxPrice))
    ensures OrderOf(sortBy).Some? ==>
              var o := OrderOf(sortBy).value;
              SortedBy(filtered, o)
              && forall v :: Ties(filtered, o, v) == Ties(FilterBy(allProducts, CriteriaOf(selectedBrands, minPrice, maxPrice)), o, v)
  {
    filtered := ApplyFilters(allProducts, selectedBrands, minPrice, maxPrice);
    FilterByMembers(allProducts, CriteriaOf(selectedBrands, minPrice, maxPrice));
    var shown := filtered;
    var order := OrderOf(sortBy);
    if order.Some? {
      filtered := Sort(filtered, order.value);
      SortSorted(shown, order.value);
      forall v ensures Ties(filtered, order.value, v) == Ties(shown, order.value, v) {
        SortStable(shown, order.value, v);
      }
      assert forall p :: p in filtered <==> p in shown by {
        assert forall p :: p in filtered <==> p in multiset(filtered);
      }
    }
  }

  // ---------------------------------------------------------------------------------
  // The brand check boxes and the filter state.

  /** `prev.filter(b => b !== brand)`. */
  function Without(prev: seq<string>, brand: string): (r: seq<string>)
    ensures forall b :: b in r <==> b in prev && b != brand
    ensures brand !in prev ==> r == prev
  {
    if prev == [] then []
    else
      assert prev == [prev[0]] + prev[1..];
      (if prev[0] == brand then [] else [prev[0]]) + Without(prev[1..], brand)
  }

  /** `handleBrandToggle(brand)`: the brand is dropped when selected, else appended. */
  function Toggled(prev: seq<string>, brand: string): (r: seq<string>)
  {
    if brand in prev then Without(prev, brand) else prev + [brand]
  }

  /** Toggling flips whether the brand is selected and leaves every other brand as it
      was; a brand that was not selected is appended last. */
  lemma ToggledFlips(prev: seq<string>, brand: string)
    ensures brand in Toggled(prev, brand) <==> brand !in prev
    ensures forall b :: b != brand ==> (b in Toggled(prev, brand) <==> b in prev)
    ensures brand !in prev ==> Toggled(prev, brand) == prev + [brand]
  {
  }

  /** Toggling twice restores the same selected brands, and the very same list when
      the brand was not selected before; a brand selected earlier comes back last. */
  lemma ToggledTwice(prev: seq<string>, brand: string)
    ensures forall b :: b in Toggled(Toggled(prev, brand), brand) <==> b in prev
    ensures brand !in prev ==> Toggled(Toggled(prev, brand), brand) == prev
  {
    if brand !in prev {
      assert brand in prev + [brand];
      assert Without(prev + [brand], brand) == prev by {
        WithoutAppendSelf(prev, brand);
      }
    }
  }

  lemma {:induction false} WithoutAppendSelf(prev: seq<string>, brand: string)
    requires brand !in prev
    ensures Without(prev + [brand], brand) == prev
    decreases |prev|
  {
    if prev == [] {
      assert Without([brand], brand) == [] + Without([], brand);
    } else {
      WithoutAppendSelf(prev[1..], brand);
      assert (prev + [brand])[1..] == prev[1..] + [brand];
    }
  }

  /** Toggling a brand twice shows the same products as before. */
  lemma ToggledTwiceShowsSame(ps: seq<Product>, prev: seq<string>, brand: string, minPrice: string, maxPrice: string)
    ensures FilterBy(ps, CriteriaOf(Toggled(Toggled(prev, brand), brand), minPrice, maxPrice))
            == FilterBy(ps, CriteriaOf(prev, minPrice, maxPrice))
  {
    ToggledTwice(prev, brand);
    var twice := Toggled(Toggled(prev, brand), brand);
    assert twice == [] <==> prev == [] by {
      if twice != [] { assert twice[0] in prev; }
      if prev != [] { assert prev[0] in twice; }
    }
    FilterBySame(ps, CriteriaOf(twice, minPrice, maxPrice), CriteriaOf(prev, minPrice, maxPrice));
  }

  /** `hasActiveFilters`. */
  predicate HasActiveFilters(selectedBrands: seq<string>, minPrice: string, maxPrice: string, sortBy: string)
  {
    |selectedBrands| > 0 || minPrice != "" || maxPrice != "" || sortBy != "default"
  }

  /** Without an active filter the page shows the category's products as they are. */
  lemma InactiveFiltersShowAll(ps: seq<Product>, selectedBrands: seq<string>, minPrice: string,
                               maxPrice: string, sortBy: string)
    requires !HasActiveFilters(selectedBrands, minPrice, maxPrice, sortBy)
    ensures FilterBy(ps, CriteriaOf(selectedBrands, minPrice, maxPrice)) == ps
    ensures OrderOf(sortBy).None?
  {
    FilterByNothing(ps);
  }

  /** The page state. */
  class Page {
    var categoryName: string
    var allProducts: seq<Product>
    var banner: Option<Banner>
    var showFilters: bool
    var selectedBrands: seq<string>
    var minPrice: string
    var maxPrice: string
    var sortBy: string

    constructor()
      ensures categoryName == "" && allProducts == [] && banner == None && !showFilters
      ensures selectedBrands == [] && minPrice == "" && maxPrice == "" && sortBy == "default"
    {
      categoryName := "";
      allProducts := [];
      banner := None;
      showFilters := false;
      selectedBrands := [];
      minPrice := "";
      maxPrice := "";
      sortBy := "default";
    }

    /** The effect run when the category parameter changes: a known category loads its
        products and banner and resets the filters; otherwise the page shows no
        products and keeps its filters. */
    method LoadCategory(param: string)
      modifies this
      ensures Resolve(param).Some? ==>
                categoryName == Resolve(param).value
                && allProducts == MockProducts.ProductsByCategory(Str(categoryName))
                && banner == BannerFor(categoryName)
                && selectedBrands == [] && minPrice == "" && maxPrice == "" && sortBy == "default"
                && !showFilters
      ensures Resolve(param).None? ==>
                categoryName == "Products" && allProducts == [] && banner == None
                && selectedBrands == old(selectedBrands) && minPrice == old(minPrice)
                && maxPrice == old(maxPrice) && sortBy == old(sortBy) && showFilters == old(showFilters)
    {
      var valid := Resolve(param);
      if valid.Some? {
        categoryName := valid.value;
        allProducts := MockProducts.ProductsByCategory(Str(valid.value));
        banner := BannerFor(valid.value);
        selectedBrands := [];
        minPrice := "";
        maxPrice := "";
        sortBy := "default";
        showFilters := false;
      } else {
        categoryName := "Products";
        allProducts := [];
        banner := None;
      }
    }

    /** `handleBrandToggle(brand)`. */
    method ToggleBrand(brand: string)
      modifies this
      ensures selectedBrands == Toggled(old(selectedBrands), brand)
      ensures categoryName == old(categoryName) && allProducts == old(allProducts) && banner == old(banner)
      ensures minPrice == old(minPrice) && maxPrice == old(maxPrice) && sortBy == old(sortBy)
      ensures showFilters == old(showFilters)
    {
      if brand in selectedBrands {
        selectedBrands := Without(selectedBrands, brand);
      } else {
        selectedBrands := selectedBrands + [brand];
      }
    }

    /** `handleClearFilters()`: afterwards no filter is active. */
    method ClearFilters()
      modifies this
      ensures !HasActiveFilters(selectedBrands, minPrice, maxPrice, sortBy)
      ensures selectedBrands == [] && minPrice == "" && maxPrice == "" && sortBy == "default"
      ensures categoryName == old(categoryName) && allProducts == old(allProducts) && banner == old(banner)
      ensures showFilters == old(showFilters)
    {
      selectedBrands := [];
      minPrice := "";
      maxPrice := "";
      sortBy := "default";
    }
  }
}
