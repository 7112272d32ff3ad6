/** app/page.tsx: the home page's featured products and which of its sections appear. */
module HomePage {
  import opened Wrappers
  import opened Cosmic
  import opened ProductsPage

  /** The sections below the hero; each is absent or holds the list it shows. */
  datatype Sections = Sections(
    collectionsSection: Option<seq<CmsObject>>,
    featuredSection: Option<seq<CmsObject>>,
    reviewsSection: Option<seq<CmsObject>>)

  /** `products.filter((p) => p.metadata.available !== false).slice(0, 3)` */
  function Featured(products: seq<CmsObject>): (r: seq<CmsObject>)
    ensures var eligible := Available(products);
      && |r| == (if |eligible| < 3 then |eligible| else 3)
      && r == eligible[..|r|]
  {
    var eligible := Available(products);
    if |eligible| < 3 then eligible else eligible[..3]
  }

  /** Every featured product is one of the products, and none is marked
      `available: false`. */
  lemma FeaturedAreAvailable(products: seq<CmsObject>)
    ensures forall p :: p in Featured(products) ==> p in products && IsAvailable(p)
  {
    AvailableMembers(products);
    var eligible := Available(products);
    var r := Featured(products);
    forall p | p in r ensures p in eligible {
      var i :| 0 <= i < |r| && r[i] == p;
      assert eligible[i] == p;
    }
  }

  /** A product without an `available` field is eligible: when the first three products
      have none, they are the featured ones. */
  lemma UnsetAvailableIsFeatured(products: seq<CmsObject>)
    requires |products| >= 3
    requires forall i :: 0 <= i < 3 ==> "available" !in products[i].metadata
    ensures Featured(products) == products[..3]
  {
    var head := products[..3];
    AllAvailable(head);
    AvailableAppend(head, products[3..]);
    assert head + products[3..] == products;
  }

  /** `HomePage()`, given what `getProducts()`, `getCollections()` and `getReviews()`
      returned: each section appears exactly when its list is non-empty. */
  function HomeView(products: seq<CmsObject>, collections: seq<CmsObject>, reviews: seq<CmsObject>): (v: Sections)
    ensures v.collectionsSection.Some? <==> collections != []
    ensures v.collectionsSection.Some? ==> v.collectionsSection.value == collections
    ensures v.featuredSection.Some? <==> Featured(products) != []
    ensures v.featuredSection.Some? ==> v.featuredSection.value == Featured(products)
    ensures v.reviewsSection.Some? <==> reviews != []
    ensures v.reviewsSection.Some? ==> v.reviewsSection.value == reviews
  {
    var featured := Featured(products);
    Sections(
      if |collections| > 0 then Some(collections) else None,
      if |featured| > 0 then Some(featured) else None,
      if |reviews| > 0 then Some(reviews) else None)
  }

  /** The featured section appears exactly when some product is not marked
      `available: false`, and then the listing page is not empty either. */
  lemma FeaturedShownIffAnyAvailable(products: seq<CmsObject>, collections: seq<CmsObject>, reviews: seq<CmsObject>)
    ensures HomeView(products, collections, reviews).featuredSection.Some?
      <==> exists p :: p in products && IsAvailable(p)
    ensures HomeView(products, collections, reviews).featuredSection.Some?
      <==> ProductsView(products, collections).grid.Cards?
  {
    AvailableMembers(products);
    var eligible := Available(products);
    if eligible != [] {
      assert eligible[0] in eligible;
    }
  }
}
