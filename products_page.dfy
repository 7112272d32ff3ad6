/** app/products/page.tsx: the product listing, its count line, the collection chips and
    the empty-listing message. The listing and the home page share the "available" filter. */
module ProductsPage {
  import opened Wrappers
  import opened Strings
  import opened Cosmic

  /** `p.metadata.available !== false`: only an explicit `false` hides a product; a
      missing field or any other value keeps it. */
  predicate IsAvailable(p: CmsObject) {
    !(AvailableKey in p.metadata && p.metadata[AvailableKey] == Flag(false))
  }

  const AvailableKey := "available"

  /** `products.filter((p) => p.metadata.available !== false)` */
  function Available(products: seq<CmsObject>): (r: seq<CmsObject>)
    ensures |r| <= |products|
  {
    if products == [] then []
    else if IsAvailable(products[0]) then [products[0]] + Available(products[1..])
    else Available(products[1..])
  }

  /** The filter keeps exactly the available products. */
  lemma {:induction false} AvailableMembers(products: seq<CmsObject>)
    ensures forall p :: p in Available(products) <==> p in products && IsAvailable(p)
  {
    if products != [] {
      AvailableMembers(products[1..]);
      assert products == [products[0]] + products[1..];
    }
  }

  /** The first product survives the filter exactly when it is available. */
  function KeptIfAvailable(p: CmsObject): seq<CmsObject> {
    if IsAvailable(p) then [p] else []
  }

  /** One step of the filter. */
  lemma AvailableCons(p: CmsObject, rest: seq<CmsObject>)
    ensures Available([p] + rest) == KeptIfAvailable(p) + Available(rest)
  {
    assert ([p] + rest)[0] == p && ([p] + rest)[1..] == rest;
    if !IsAvailable(p) {
      assert [] + Available(rest) == Available(rest);
    }
  }

  /** The filter keeps the original order: filtering a concatenation filters each part. */
  lemma {:induction false} AvailableAppend(a: seq<CmsObject>, b: seq<CmsObject>)
    ensures Available(a + b) == Available(a) + Available(b)
  {
    if a == [] {
      assert a + b == b;
    } else {
      var p, rest := a[0], a[1..];
      assert a == [p] + rest;
      AvailableAppend(rest, b);
      AvailableAppendStep(p, rest, b);
    }
  }

  /** The inductive step of `AvailableAppend`. */
  lemma AvailableAppendStep(p: CmsObject, rest: seq<CmsObject>, b: seq<CmsObject>)
    requires Available(rest + b) == Available(rest) + Available(b)
    ensures Available([p] + rest + b) == Available([p] + rest) + Available(b)
  {
    var k := KeptIfAvailable(p);
    assert [p] + rest + b == [p] + (rest + b);
    calc {
      Available([p] + (rest + b));
    == { AvailableCons(p, rest + b); }
      k + Available(rest + b);
    ==
      k + (Available(rest) + Available(b));
    == { assert k + (Available(rest) + Available(b)) == (k + Available(rest)) + Available(b); }
      (k + Available(rest)) + Available(b);
    == { AvailableCons(p, rest); }
      Available([p] + rest) + Available(b);
    }
  }

  /** When every product is available, none is dropped. */
  lemma {:induction false} AllAvailable(products: seq<CmsObject>)
    requires forall i :: 0 <= i < |products| ==> IsAvailable(products[i])
    ensures Available(products) == products
  {
    if products != [] {
      AllAvailable(products[1..]);
    }
  }

  /** A filter chip: the unlinked "All" chip, or a link to one collection showing its
      `metadata.name`. */
  datatype Chip = AllChip | CollectionChip(href: string, name: Option<Value>)

  /** What lies in the grid: the product cards, or the empty-listing message. */
  datatype Grid = Cards(products: seq<CmsObject>) | EmptyMessage(text: string)

  datatype View = View(countLabel: string, chips: seq<Chip>, grid: Grid)

  const NoProducts := "No products available at the moment."

  /** `{n} {n === 1 ? 'product' : 'products'} available` */
  function CountLabel(n: nat): (text: string)
    ensures StartsWith(text, ToRadix(n, 10) + " ")
  {
    ToRadix(n, 10) + " " + (if n == 1 then "product" else "products") + " available"
  }

  /** The label splits on ' ' into the count, which reads back as `n`, the noun, which is
      singular exactly when `n` is 1, and "available". */
  lemma CountLabelParts(n: nat)
    ensures var parts := Split(CountLabel(n), ' ');
      && |parts| == 3
      && FromRadix(parts[0], 10) == n
      && (parts[1] == "product" <==> n == 1)
      && (parts[1] == "products" <==> n != 1)
      && parts[2] == "available"
  {
    CountLabelSplit(n, ToRadix(n, 10), if n == 1 then "product" else "products");
    RadixRoundTrip(n, 10);
    assert "product" != "products";
  }

  /** The three words of the label. */
  lemma CountLabelSplit(n: nat, digits: string, noun: string)
    requires digits == ToRadix(n, 10) && noun == if n == 1 then "product" else "products"
    ensures Split(CountLabel(n), ' ') == [digits, noun, AvailableKey]
  {
    assert ' ' !in digits by {
      forall i | 0 <= i < |digits| ensures digits[i] != ' ' {
        assert DigitValue(digits[i]) >= 0;
      }
    }
    assert CountLabel(n) == digits + [' '] + noun + [' '] + AvailableKey;
    SplitThree(digits, noun, AvailableKey, ' ');
  }

  function ChipFor(collection: CmsObject): (c: Chip)
    ensures c.CollectionChip? && c.href == "/collections/" + collection.slug
    ensures "name" in collection.metadata <==> c.name.Some?
    ensures c.name.Some? ==> c.name.value == collection.metadata["name"]
  {
    CollectionChip("/collections/" + collection.slug,
      if "name" in collection.metadata then Some(collection.metadata["name"]) else None)
  }

  /** `collections.map(...)`: one chip per collection, in order. */
  function CollectionChips(collections: seq<CmsObject>): (r: seq<Chip>)
    ensures |r| == |collections|
    ensures forall i :: 0 <= i < |collections| ==> r[i] == ChipFor(collections[i])
  {
    if collections == [] then [] else [ChipFor(collections[0])] + CollectionChips(collections[1..])
  }

  /** `ProductsPage()`, given what `getProducts()` and `getCollections()` returned. */
  function ProductsView(products: seq<CmsObject>, collections: seq<CmsObject>): (v: View)
    ensures v.countLabel == CountLabel(|Available(products)|)
    ensures v.chips == [] <==> collections == []
    ensures collections != [] ==> |v.chips| == |collections| + 1 && v.chips[0] == AllChip
    ensures forall i :: 0 <= i < |collections| ==> v.chips[i + 1] == ChipFor(collections[i])
    ensures v.grid.EmptyMessage? <==> Available(products) == []
    ensures v.grid.EmptyMessage? ==> v.grid.text == NoProducts
    ensures v.grid.Cards? ==> v.grid.products == Available(products)
  {
    var available := Available(products);
    var chips := if |collections| > 0 then [AllChip] + CollectionChips(collections) else [];
    var grid := if |available| > 0 then Cards(available) else EmptyMessage(NoProducts);
    View(CountLabel(|available|), chips, grid)
  }

  /** The listing shows the empty message exactly when every product is marked
      `available: false`; otherwise every card is an available product. */
  lemma EmptyListingIffNoneAvailable(products: seq<CmsObject>, collections: seq<CmsObject>)
    ensures var v := ProductsView(products, collections);
      && (v.grid.EmptyMessage? <==> forall p :: p in products ==> !IsAvailable(p))
      && (v.grid.Cards? ==> forall p :: p in v.grid.products ==> p in products && IsAvailable(p))
  {
    AvailableMembers(products);
    var available := Available(products);
    if available != [] {
      assert available[0] in available;
    }
  }
}
