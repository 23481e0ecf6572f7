/** The listing catalog of the main screen: the seed listings, the filter by
    the active category, and the choice between the card grid and the
    "no listings in this section" notice. */
module Catalog {
  import opened Types

  /** `a` can be obtained from `b` by deleting elements: the elements of `a`
      occur in `b` in the same relative order. */
  predicate Subsequence<T(==)>(a: seq<T>, b: seq<T>)
    decreases |b|
  {
    if a == [] then true
    else if b == [] then false
    else (a[0] == b[0] && Subsequence(a[1..], b[1..])) || Subsequence(a, b[1..])
  }

  /** The listings of category `c`, in catalog order (`Array.prototype.filter`
      with the predicate `l.category === activeCategory`). */
  function Filter(listings: seq<Listing>, c: Category): (r: seq<Listing>)
    ensures |r| <= |listings|
    ensures forall i :: 0 <= i < |r| ==> r[i].category == c
    ensures forall l :: l in r ==> l in listings
  {
    if listings == [] then []
    else if listings[0].category == c then [listings[0]] + Filter(listings[1..], c)
    else Filter(listings[1..], c)
  }

  /** Filtering keeps the catalog's relative order. */
  lemma {:induction false} FilterIsSubsequence(listings: seq<Listing>, c: Category)
    ensures Subsequence(Filter(listings, c), listings)
  {
    if listings != [] {
      var rest := Filter(listings[1..], c);
      FilterIsSubsequence(listings[1..], c);
      if listings[0].category == c {
        var r := [listings[0]] + rest;
        assert r[0] == listings[0] && r[1..] == rest;
      } else if rest != [] {
        assert Subsequence(rest, listings[1..]);
      }
    }
  }

  /** Filtering drops nothing of category `c`: every order-preserving
      selection of category-`c` listings is a selection from the filter's
      result. With FilterIsSubsequence, the result is the greatest such
      selection. */
  lemma {:induction false} FilterMaximal(listings: seq<Listing>, c: Category, r: seq<Listing>)
    requires Subsequence(r, listings)
    requires forall i :: 0 <= i < |r| ==> r[i].category == c
    ensures Subsequence(r, Filter(listings, c))
  {
    if r != [] && listings != [] {
      var x, rest := listings[0], listings[1..];
      var f := Filter(rest, c);
      if r[0] == x && Subsequence(r[1..], rest) {
        FilterMaximal(rest, c, r[1..]);
        var g := [x] + f;
        assert g[0] == x && g[1..] == f;
      } else {
        FilterMaximal(rest, c, r);
        if x.category == c {
          var g := [x] + f;
          assert g[1..] == f;
        }
      }
    }
  }

  /** A listing occurs in the result exactly as often as in the catalog when
      it has category `c`, and not at all otherwise. */
  lemma {:induction false} FilterCounts(listings: seq<Listing>, c: Category, l: Listing)
    ensures multiset(Filter(listings, c))[l] == if l.category == c then multiset(listings)[l] else 0
  {
    if listings != [] {
      FilterCounts(listings[1..], c, l);
      assert listings == [listings[0]] + listings[1..];
    }
  }

  /** A listing is shown exactly when it is in the catalog and has category `c`. */
  lemma FilterMembership(listings: seq<Listing>, c: Category, l: Listing)
    ensures l in Filter(listings, c) <==> l in listings && l.category == c
  {
    FilterCounts(listings, c, l);
  }

  /** Filtering a concatenation filters each part. */
  lemma {:induction false} FilterAppend(a: seq<Listing>, b: seq<Listing>, c: Category)
    ensures Filter(a + b, c) == Filter(a, c) + Filter(b, c)
  {
    if a == [] {
      assert a + b == b;
    } else {
      var ab := a + b;
      assert ab[0] == a[0] && ab[1..] == a[1..] + b;
      FilterAppend(a[1..], b, c);
      if a[0].category == c {
        assert Filter(ab, c) == [a[0]] + (Filter(a[1..], c) + Filter(b, c));
      } else {
        assert Filter(ab, c) == Filter(a[1..], c) + Filter(b, c);
      }
    }
  }

  /** Filtering twice by the same category changes nothing. */
  lemma {:induction false} FilterIdempotent(listings: seq<Listing>, c: Category)
    ensures Filter(Filter(listings, c), c) == Filter(listings, c)
  {
    if listings != [] {
      FilterIdempotent(listings[1..], c);
    }
  }

  /** Number of listings of category `c`. */
  function CountOf(listings: seq<Listing>, c: Category): nat
  {
    |Filter(listings, c)|
  }

  /** The five category sections partition the catalog: every listing is in
      exactly one of them. */
  lemma {:induction false} FilterPartition(listings: seq<Listing>)
    ensures CountOf(listings, RealEstate) + CountOf(listings, Factories)
          + CountOf(listings, HeavyEquipment) + CountOf(listings, Cars)
          + CountOf(listings, Uber) == |listings|
  {
    if listings != [] {
      FilterPartition(listings[1..]);
    }
  }

  /** What the listings area of the main screen shows. */
  datatype Grid = Cards(listings: seq<Listing>) | EmptyNotice

  /** The listings area for the active category: the matching cards, or the
      empty-section notice when there are none. */
  function CatalogGrid(listings: seq<Listing>, c: Category): (g: Grid)
    ensures g.EmptyNotice? <==> forall i :: 0 <= i < |listings| ==> listings[i].category != c
    ensures g.Cards? ==> g.listings != [] && g.listings == Filter(listings, c)
  {
    var shown := Filter(listings, c);
    if |shown| > 0 then
      assert shown[0] in listings;
      Cards(shown)
    else
      assert forall i :: 0 <= i < |listings| ==> listings[i].category != c by {
        forall i | 0 <= i < |listings| ensures listings[i].category != c {
          FilterMembership(listings, c, listings[i]);
        }
      }
      EmptyNotice
  }

  /** A seed listing: the fields the seed data leaves empty are empty here too. */
  function Seed(id: string, title: string, price: int, c: Category, location: string, imageUrl: string): Listing
  {
    Listing(id, title, price, "ريال", c, location, imageUrl, "", "", None, None)
  }

  /** The six listings the main screen starts from. */
  function SeedListings(): (s: seq<Listing>)
    ensures |s| == 6
  {
    [ Seed("1", "فيلا مودرن للبيع", 2500000, RealEstate, "الرياض، حي النرجس", "assets/images/house1.jpg"),
      Seed("2", "تويوتا لاندكروزر 2024", 340000, Cars, "جدة، حي الروضة", "assets/images/car1.jpg"),
      Seed("3", "رافعات شوكية كوماتسو", 85000, HeavyEquipment, "الدمام، المنطقة الصناعية", "assets/images/truck1.jpg"),
      Seed("4", "مصنع بلاستيك متكامل", 12000000, Factories, "الجبيل", "assets/images/factory1.jpg"),
      Seed("5", "شقة فاخرة للإيجار", 45000, RealEstate, "الخبر", "assets/images/apt1.jpg"),
      Seed("6", "مرسيدس G63 AMG", 980000, Cars, "الرياض", "assets/images/car2.jpg") ]
  }

  /** The identifiers of a sequence of listings, in order. */
  function Ids(listings: seq<Listing>): (ids: seq<string>)
    ensures |ids| == |listings|
    ensures forall i :: 0 <= i < |listings| ==> ids[i] == listings[i].id
  {
    if listings == [] then [] else [listings[0].id] + Ids(listings[1..])
  }

  /** Selecting "cars" on the seed data shows exactly the Land Cruiser and
      the G63, in that order. */
  lemma SeedCars()
    ensures Ids(Filter(SeedListings(), Cars)) == ["2", "6"]
    ensures var shown := Filter(SeedListings(), Cars);
      |shown| == 2 && shown[0].title == "تويوتا لاندكروزر 2024" && shown[1].title == "مرسيدس G63 AMG"
  {
  }

  /** The seed data has no transport listing, so the "uber" section shows the
      empty-section notice. */
  lemma SeedUber()
    ensures Filter(SeedListings(), Uber) == []
    ensures CatalogGrid(SeedListings(), Uber) == EmptyNotice
  {
  }

  /** How the six seed listings spread over the categories. */
  lemma SeedCounts()
    ensures CountOf(SeedListings(), RealEstate) == 2
    ensures CountOf(SeedListings(), Cars) == 2
    ensures CountOf(SeedListings(), HeavyEquipment) == 1
    ensures CountOf(SeedListings(), Factories) == 1
    ensures CountOf(SeedListings(), Uber) == 0
  {
  }
}
