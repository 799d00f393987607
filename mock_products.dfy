/** The storefront's fixed product catalogue and its two lookups. */
module MockProducts {
  import opened Wrappers
  import opened JsText
  import opened JsValue

  /** The fields of a catalogue entry that the storefront logic reads. Every rating in
      the table has one decimal, so `ratingTenths` holds it exactly (4.8 is 48). */
  datatype Product = Product(id: int, name: string, category: string, brand: string,
                             price: int, originalPrice: int, image: string, inStock: bool,
                             ratingTenths: int)

  const Speakers := "Speakers"
  const Watches := "Watches"
  const Headphones := "Headphones"

  const Categories: seq<string> := [Speakers, Watches, Headphones]

  const SpeakerImage := "https://images.unsplash.com/photo-1608043152269-423dbba4e7e1?w=500&h=500&fit=crop"
  const WatchImage := "https://images.unsplash.com/photo-1523275335684-37898b6baf30?w=500&h=500&fit=crop"
  const HeadphoneImage := "https://images.unsplash.com/photo-1505740420928-5e560c06d30e?w=500&h=500&fit=crop"

  const Products: seq<Product> := [
    Product(1, "Bose SoundLink Revolve+ Bluetooth Speaker", Speakers, "Bose", 32999, 39999, SpeakerImage, true, 48),
    Product(2, "Sonos Move Smart Speaker", Speakers, "Sonos", 44999, 52999, SpeakerImage, true, 49),
    Product(3, "JBL PartyBox 310 Portable Speaker", Speakers, "JBL", 54999, 64999, SpeakerImage, true, 47),
    Product(4, "Bang & Olufsen Beosound A1 2nd Gen", Speakers, "Bang & Olufsen", 24999, 29999, SpeakerImage, true, 48),
    Product(5, "Marshall Acton III Bluetooth Speaker", Speakers, "Marshall", 27999, 32999, SpeakerImage, true, 46),
    Product(6, "Apple Watch Ultra 2", Watches, "Apple", 89900, 99900, WatchImage, true, 49),
    Product(7, "Samsung Galaxy Watch 6 Classic", Watches, "Samsung", 44999, 49999, WatchImage, true, 47),
    Product(8, "Garmin Fenix 7 Pro", Watches, "Garmin", 89999, 99999, WatchImage, true, 48),
    Product(9, "Tag Heuer Connected Calibre E4", Watches, "Tag Heuer", 249999, 279999, WatchImage, true, 46),
    Product(10, "Fossil Gen 6 Wellness Edition", Watches, "Fossil", 24999, 29999, WatchImage, true, 45),
    Product(11, "Sony WH-1000XM5 Wireless Headphones", Headphones, "Sony", 34999, 39999, HeadphoneImage, true, 49),
    Product(12, "Bose QuietComfort Ultra Headphones", Headphones, "Bose", 42999, 47999, HeadphoneImage, true, 48),
    Product(13, "Apple AirPods Max", Headphones, "Apple", 59900, 64900, HeadphoneImage, true, 47),
    Product(14, "Sennheiser Momentum 4 Wireless", Headphones, "Sennheiser", 37999, 42999, HeadphoneImage, true, 48),
    Product(15, "Beats Studio Pro Wireless", Headphones, "Beats", 34999, 39999, HeadphoneImage, true, 46)
  ]

  /** The ids are 1 to 15 in table order, so no two products share one. */
  lemma ProductIds()
    ensures |Products| == 15
    ensures forall i :: 0 <= i < |Products| ==> Products[i].id == i + 1
  {
  }

  /** The table lists the speakers, then the watches, then the headphones, five each;
      so every product's category is one of `Categories`. */
  lemma ProductCategories()
    ensures |Products| == 15
    ensures forall i :: 0 <= i < |Products| ==>
              Products[i].category == if i < 5 then Speakers else if i < 10 then Watches else Headphones
    ensures forall i :: 0 <= i < |Products| ==> Products[i].category in Categories
  {
  }

  /** Every product is on sale: its price is positive and below the original price. */
  lemma ProductsDiscounted()
    ensures forall i :: 0 <= i < |Products| ==> 0 < Products[i].price < Products[i].originalPrice
  {
  }

  /** `products.find(p => p.id === parseInt(id))`. */
  function ProductById(id: Value): Option<Product>
  {
    match ParseIntValue(id)
    case None => None
    case Some(n) => FindById(Products, n)
  }

  function FindById(ps: seq<Product>, n: int): (r: Option<Product>)
    ensures r.Some? ==> r.value in ps && r.value.id == n
    ensures r.None? ==> forall p :: p in ps ==> p.id != n
  {
    if ps == [] then None
    else if ps[0].id == n then Some(ps[0])
    else FindById(ps[1..], n)
  }

  /** `getProductById` finds a catalogue product carrying the parsed id, or, when there
      is none or the id does not parse, nothing. */
  lemma ProductByIdFinds(id: Value)
    ensures ProductById(id).Some? ==>
              ProductById(id).value in Products && ParseIntValue(id) == Some(ProductById(id).value.id)
    ensures ProductById(id).None? ==>
              ParseIntValue(id).None? || forall p :: p in Products ==> p.id != ParseIntValue(id).value
  {
    match ParseIntValue(id)
    case None =>
    case Some(n) =>
      var r := FindById(Products, n);
  }

  /** `products.filter(p => p.category === category)`. */
  function ProductsByCategory(category: Value): (r: seq<Product>)
    ensures forall i :: 0 <= i < |r| ==> category == Str(r[i].category)
  {
    InCategory(Products, category)
  }

  /** `getProductsByCategory` gives catalogue products of that category, and every
      catalogue product of that category. */
  lemma ProductsByCategoryMembers(category: Value)
    ensures forall p :: p in ProductsByCategory(category) <==> p in Products && category == Str(p.category)
  {
    forall p | p in Products && category == Str(p.category)
      ensures p in ProductsByCategory(category)
    {
      var i :| 0 <= i < |Products| && Products[i] == p;
      InCategoryKeepsMatches(Products, category, i);
    }
  }

  function InCategory(ps: seq<Product>, category: Value): (r: seq<Product>)
    ensures forall i :: 0 <= i < |r| ==> r[i] in ps && category == Str(r[i].category)
    ensures |r| <= |ps|
  {
    if ps == [] then []
    else (if category == Str(ps[0].category) then [ps[0]] else []) + InCategory(ps[1..], category)
  }

  /** Filtering keeps every product of the category, in table order. */
  lemma {:induction false} InCategoryKeepsMatches(ps: seq<Product>, category: Value, i: nat)
    requires i < |ps| && category == Str(ps[i].category)
    ensures ps[i] in InCategory(ps, category)
    decreases |ps|
  {
    if i > 0 {
      InCategoryKeepsMatches(ps[1..], category, i - 1);
    }
  }

  lemma {:induction false} InCategoryNone(ps: seq<Product>, category: Value)
    requires forall i :: 0 <= i < |ps| ==> category != Str(ps[i].category)
    ensures InCategory(ps, category) == []
    decreases |ps|
  {
    if ps != [] {
      InCategoryNone(ps[1..], category);
    }
  }

  /** When the products of a category are exactly one block of the table, filtering
      by the category gives that block. */
  lemma {:induction false} CategoryBlock(ps: seq<Product>, c: string, lo: nat, hi: nat)
    requires lo <= hi <= |ps|
    requires forall i :: 0 <= i < |ps| ==> (ps[i].category == c <==> lo <= i < hi)
    ensures InCategory(ps, Str(c)) == ps[lo..hi]
    decreases |ps|
  {
    if hi == 0 {
      InCategoryNone(ps, Str(c));
    } else if lo > 0 {
      assert ps[0].category != c;
      CategoryBlock(ps[1..], c, lo - 1, hi - 1);
      assert ps[1..][lo - 1..hi - 1] == ps[lo..hi];
    } else {
      assert ps[0].category == c;
      CategoryBlock(ps[1..], c, 0, hi - 1);
      assert [ps[0]] + ps[1..][0..hi - 1] == ps[0..hi];
    }
  }

  /** Each category is exactly its block of five consecutive products, in table order. */
  lemma ProductsPerCategory(c: string, lo: nat)
    requires (c, lo) == (Speakers, 0) || (c, lo) == (Watches, 5) || (c, lo) == (Headphones, 10)
    ensures ProductsByCategory(Str(c)) == Products[lo..lo + 5]
  {
    ProductCategories();
    assert Speakers != Watches && Speakers != Headphones && Watches != Headphones;
    CategoryBlock(Products, c, lo, lo + 5);
  }
}
