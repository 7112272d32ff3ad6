/** lib/cosmic.ts: the catalogue readers and the order store over the CMS bucket. The
    bucket is an in-memory sequence of records; a query keeps the records of one type whose
    slug or one metadata field equals a given value. */
module Cosmic {
  import opened Wrappers

  /** A metadata value as the storefront reads it. */
  datatype Value = Str(s: string) | Num(n: real) | Flag(b: bool)

  /** A CMS record (`CosmicObject` with its `metadata`). */
  datatype CmsObject = CmsObject(
    id: string,
    title: string,
    slug: string,
    objType: string,
    metadata: map<string, Value>)

  /** The part of a query beyond the object type. */
  datatype Filter = All | BySlug(slug: string) | ByMeta(key: string, value: Value)

  datatype Query = Query(objType: string, filter: Filter)

  /** What the SDK throws: an object that may carry a numeric `status`. */
  datatype Fault = Fault(status: Option<int>)

  /** `hasStatus(error) && error.status === 404` */
  predicate IsNotFound(f: Fault) {
    f.status == Some(404)
  }

  predicate Matches(o: CmsObject, q: Query) {
    && o.objType == q.objType
    && match q.filter
       case All => true
       case BySlug(slug) => o.slug == slug
       case ByMeta(key, value) => key in o.metadata && o.metadata[key] == value
  }

  /** The records a query selects, in bucket order. */
  function Matching(objects: seq<CmsObject>, q: Query): (r: seq<CmsObject>)
    ensures |r| <= |objects|
  {
    if objects == [] then []
    else if Matches(objects[0], q) then [objects[0]] + Matching(objects[1..], q)
    else Matching(objects[1..], q)
  }

  /** Selection keeps exactly the records that match. */
  lemma {:induction false} MatchingMembers(objects: seq<CmsObject>, q: Query)
    ensures forall o :: o in Matching(objects, q) <==> o in objects && Matches(o, q)
  {
    if objects != [] {
      MatchingMembers(objects[1..], q);
      assert objects == [objects[0]] + objects[1..];
    }
  }

  /** Nothing is selected when no record matches. */
  lemma {:induction false} MatchingNone(objects: seq<CmsObject>, q: Query)
    requires forall o :: o in objects ==> !Matches(o, q)
    ensures Matching(objects, q) == []
  {
    if objects != [] {
      assert objects[0] in objects;
      MatchingNone(objects[1..], q);
    }
  }

  /** The first record of a selection, kept exactly when it matches. */
  function Kept(o: CmsObject, q: Query): seq<CmsObject> {
    if Matches(o, q) then [o] else []
  }

  /** One step of the selection. */
  lemma MatchingCons(o: CmsObject, rest: seq<CmsObject>, q: Query)
    ensures Matching([o] + rest, q) == Kept(o, q) + Matching(rest, q)
  {
    assert ([o] + rest)[0] == o && ([o] + rest)[1..] == rest;
    if !Matches(o, q) {
      assert [] + Matching(rest, q) == Matching(rest, q);
    }
  }

  /** Selection keeps bucket order: records appended later come after earlier ones. */
  lemma {:induction false} MatchingAppend(a: seq<CmsObject>, b: seq<CmsObject>, q: Query)
    ensures Matching(a + b, q) == Matching(a, q) + Matching(b, q)
  {
    if a == [] {
      assert a + b == b;
    } else {
      var o, rest := a[0], a[1..];
      assert a == [o] + rest;
      MatchingAppend(rest, b, q);
      MatchingAppendStep(o, rest, b, q);
    }
  }

  /** The inductive step of `MatchingAppend`. */
  lemma MatchingAppendStep(o: CmsObject, rest: seq<CmsObject>, b: seq<CmsObject>, q: Query)
    requires Matching(rest + b, q) == Matching(rest, q) + Matching(b, q)
    ensures Matching([o] + rest + b, q) == Matching([o] + rest, q) + Matching(b, q)
  {
    var k := Kept(o, q);
    assert [o] + rest + b == [o] + (rest + b);
    calc {
      Matching([o] + (rest + b), q);
    == { MatchingCons(o, rest + b, q); }
      k + Matching(rest + b, q);
    ==
      k + (Matching(rest, q) + Matching(b, q));
    == { assert k + (Matching(rest, q) + Matching(b, q)) == (k + Matching(rest, q)) + Matching(b, q); }
      (k + Matching(rest, q)) + Matching(b, q);
    == { MatchingCons(o, rest, q); }
      Matching([o] + rest, q) + Matching(b, q);
    }
  }

  /** `cosmic.objects.find(query)`: the matching records, or a thrown 404 when there are
      none. `fault` is a failure of the transport, which wins over everything. */
  function Find(objects: seq<CmsObject>, q: Query, fault: Option<Fault>): (r: Result<seq<CmsObject>, Fault>)
    ensures fault.Some? ==> r == Err(fault.value)
    ensures fault.None? && Matching(objects, q) == [] ==> r == Err(Fault(Some(404)))
    ensures fault.None? && Matching(objects, q) != [] ==> r == Ok(Matching(objects, q))
  {
    if fault.Some? then Err(fault.value)
    else
      var found := Matching(objects, q);
      if found == [] then Err(Fault(Some(404))) else Ok(found)
  }

  /** `cosmic.objects.findOne(query)`: the first matching record, or a thrown 404. */
  function FindOne(objects: seq<CmsObject>, q: Query, fault: Option<Fault>): (r: Result<CmsObject, Fault>)
    ensures fault.Some? ==> r == Err(fault.value)
    ensures fault.None? && !(exists o :: o in objects && Matches(o, q)) ==> r == Err(Fault(Some(404)))
    ensures fault.None? && r.Err? ==> r.error == Fault(Some(404))
    ensures r.Ok? ==> (exists i :: 0 <= i < |objects| && objects[i] == r.value
                        && Matches(r.value, q)
                        && forall j :: 0 <= j < i ==> !Matches(objects[j], q))
  {
    if fault.Some? then Err(fault.value)
    else if objects == [] then Err(Fault(Some(404)))
    else if Matches(objects[0], q) then Ok(objects[0])
    else
      var r := FindOne(objects[1..], q, None);
      if r.Ok? then
        var i :| 0 <= i < |objects[1..]| && objects[1..][i] == r.value
                && Matches(r.value, q) && forall j :: 0 <= j < i ==> !Matches(objects[1..][j], q);
        assert objects[i + 1] == r.value;
        r
      else
        assert forall o :: o in objects && Matches(o, q) ==> o in objects[1..] by {
          forall o | o in objects && Matches(o, q) ensures o in objects[1..] {
            var k :| 0 <= k < |objects| && objects[k] == o;
            assert k != 0;
            assert objects[1..][k - 1] == o;
          }
        }
        r
  }

  /** The try/catch shape of the list readers: the records on success, `[]` on a 404,
      and a fresh `Error(failMessage)` on any other failure. */
  function ReadList(objects: seq<CmsObject>, q: Query, fault: Option<Fault>, failMessage: string): (r: Result<seq<CmsObject>, Thrown>)
    ensures fault.None? ==> r == Ok(Matching(objects, q))
    ensures fault.Some? && IsNotFound(fault.value) ==> r == Ok([])
    ensures fault.Some? && !IsNotFound(fault.value) ==> r == Err(ErrorObject(failMessage))
  {
    match Find(objects, q, fault)
    case Ok(found) => Ok(found)
    case Err(f) => if IsNotFound(f) then Ok([]) else Err(ErrorObject(failMessage))
  }

  /** The try/catch shape of the single readers: the record on success, `null` on a 404,
      and a fresh `Error(failMessage)` on any other failure. */
  function ReadOne(objects: seq<CmsObject>, q: Query, fault: Option<Fault>, failMessage: string): (r: Result<Option<CmsObject>, Thrown>)
    ensures fault.None? ==> (r.Ok? && (r.value.None? <==> Matching(objects, q) == []))
    ensures fault.None? && r.Ok? && r.value.Some? ==> r.value.value == Matching(objects, q)[0]
    ensures fault.Some? && IsNotFound(fault.value) ==> r == Ok(None)
    ensures fault.Some? && !IsNotFound(fault.value) ==> r == Err(ErrorObject(failMessage))
  {
    FindOneIsFirstMatch(objects, q);
    match FindOne(objects, q, fault)
    case Ok(o) => Ok(Some(o))
    case Err(f) => if IsNotFound(f) then Ok(None) else Err(ErrorObject(failMessage))
  }

  /** `FindOne` and `Find` agree: the one record is the head of the list. */
  lemma {:induction false} FindOneIsFirstMatch(objects: seq<CmsObject>, q: Query)
    ensures FindOne(objects, q, None).Ok? <==> Matching(objects, q) != []
    ensures FindOne(objects, q, None).Ok? ==> FindOne(objects, q, None).value == Matching(objects, q)[0]
  {
    if objects != [] && !Matches(objects[0], q) {
      FindOneIsFirstMatch(objects[1..], q);
    }
  }

  const Products := "products"
  const Collections := "collections"
  const Reviews := "reviews"
  const Pages := "pages"
  const Orders := "orders"

  /** The fields of `createOrder`'s argument. */
  datatype OrderData = OrderData(
    orderNumber: string,
    customerEmail: string,
    itemsJson: string,
    totalAmount: real,
    stripeSessionId: string)

  /** The record `createOrder` asks the bucket to insert; `id` and `slug` are the ones
      the CMS assigns. */
  function OrderRecord(data: OrderData, id: string, slug: string): (o: CmsObject)
    ensures o.title == "Order " + data.orderNumber && o.objType == Orders
    ensures o.id == id && o.slug == slug
    ensures o.metadata.Keys == {"order_number", "customer_email", "items_json",
                               "total_amount", "stripe_session_id", "status"}
    ensures o.metadata["order_number"] == Str(data.orderNumber)
    ensures o.metadata["customer_email"] == Str(data.customerEmail)
    ensures o.metadata["items_json"] == Str(data.itemsJson)
    ensures o.metadata["total_amount"] == Num(data.totalAmount)
    ensures o.metadata["stripe_session_id"] == Str(data.stripeSessionId)
    ensures o.metadata["status"] == Str("Paid")
  {
    CmsObject(id, "Order " + data.orderNumber, slug, Orders,
      map["order_number" := Str(data.orderNumber),
          "customer_email" := Str(data.customerEmail),
          "items_json" := Str(data.itemsJson),
          "total_amount" := Num(data.totalAmount),
          "stripe_session_id" := Str(data.stripeSessionId),
          "status" := Str("Paid")])
  }

  function EmailQuery(email: string): Query {
    Query(Orders, ByMeta("customer_email", Str(email)))
  }

  function SessionQuery(sessionId: string): Query {
    Query(Orders, ByMeta("stripe_session_id", Str(sessionId)))
  }

  /** The bucket. Readers are functions of its records and of the transport fault; the
      one writer appends. */
  class Bucket {
    var objects: seq<CmsObject>

    constructor (objects: seq<CmsObject>)
      ensures this.objects == objects
    {
      this.objects := objects;
    }

    /** `getProducts()` */
    function GetProducts(fault: Option<Fault>): (r: Result<seq<CmsObject>, Thrown>)
      reads this
      ensures fault.None? ==> r == Ok(Matching(objects, Query(Products, All)))
      ensures fault.Some? && IsNotFound(fault.value) ==> r == Ok([])
      ensures fault.None? ==> r.Ok? && forall o :: o in r.value <==> o in objects && o.objType == Products
      ensures r.Err? <==> fault.Some? && !IsNotFound(fault.value)
      ensures r.Err? ==> r.error == ErrorObject("Failed to fetch products")
    {
      MatchingMembers(objects, Query(Products, All));
      ReadList(objects, Query(Products, All), fault, "Failed to fetch products")
    }

    /** `getProductBySlug(slug)` */
    function GetProductBySlug(slug: string, fault: Option<Fault>): (r: Result<Option<CmsObject>, Thrown>)
      reads this
      ensures r.Ok? && r.value.Some? ==> r.value.value in objects
                                           && r.value.value.objType == Products && r.value.value.slug == slug
      ensures fault.None? ==> r.Ok? && (r.value.None? <==> !exists o :: o in objects && o.objType == Products && o.slug == slug)
      ensures fault.Some? && IsNotFound(fault.value) ==> r == Ok(None)
      ensures r.Err? <==> fault.Some? && !IsNotFound(fault.value)
      ensures r.Err? ==> r.error == ErrorObject("Failed to fetch product")
    {
      ReadOneFound(objects, Query(Products, BySlug(slug)), fault, "Failed to fetch product");
      ReadOne(objects, Query(Products, BySlug(slug)), fault, "Failed to fetch product")
    }

    /** `getCollections()` */
    function GetCollections(fault: Option<Fault>): (r: Result<seq<CmsObject>, Thrown>)
      reads this
      ensures fault.None? ==> r == Ok(Matching(objects, Query(Collections, All)))
      ensures fault.Some? && IsNotFound(fault.value) ==> r == Ok([])
      ensures fault.None? ==> r.Ok? && forall o :: o in r.value <==> o in objects && o.objType == Collections
      ensures r.Err? <==> fault.Some? && !IsNotFound(fault.value)
      ensures r.Err? ==> r.error == ErrorObject("Failed to fetch collections")
    {
      MatchingMembers(objects, Query(Collections, All));
      ReadList(objects, Query(Collections, All), fault, "Failed to fetch collections")
    }

    /** `getCollectionBySlug(slug)` */
    function GetCollectionBySlug(slug: string, fault: Option<Fault>): (r: Result<Option<CmsObject>, Thrown>)
      reads this
      ensures r.Ok? && r.value.Some? ==> r.value.value in objects
                                           && r.value.value.objType == Collections && r.value.value.slug == slug
      ensures fault.None? ==> r.Ok? && (r.value.None? <==> !exists o :: o in objects && o.objType == Collections && o.slug == slug)
      ensures fault.Some? && IsNotFound(fault.value) ==> r == Ok(None)
      ensures r.Err? <==> fault.Some? && !IsNotFound(fault.value)
      ensures r.Err? ==> r.error == ErrorObject("Failed to fetch collection")
    {
      ReadOneFound(objects, Query(Collections, BySlug(slug)), fault, "Failed to fetch collection");
      ReadOne(objects, Query(Collections, BySlug(slug)), fault, "Failed to fetch collection")
    }

    /** `getProductsByCollection(collectionId)` */
    function GetProductsByCollection(collectionId: string, fault: Option<Fault>): (r: Result<seq<CmsObject>, Thrown>)
      reads this
      ensures fault.None? ==> r == Ok(Matching(objects, Query(Products, ByMeta("collection", Str(collectionId)))))
      ensures fault.Some? && IsNotFound(fault.value) ==> r == Ok([])
      ensures fault.None? ==> r.Ok? && forall o :: o in r.value <==>
        o in objects && o.objType == Products && "collection" in o.metadata && o.metadata["collection"] == Str(collectionId)
      ensures r.Err? <==> fault.Some? && !IsNotFound(fault.value)
      ensures r.Err? ==> r.error == ErrorObject("Failed to fetch products by collection")
    {
      MatchingMembers(objects, Query(Products, ByMeta("collection", Str(collectionId))));
      ReadList(objects, Query(Products, ByMeta("collection", Str(collectionId))), fault,
               "Failed to fetch products by collection")
    }

    /** `getReviews()` */
    function GetReviews(fault: Option<Fault>): (r: Result<seq<CmsObject>, Thrown>)
      reads this
      ensures fault.None? ==> r == Ok(Matching(objects, Query(Reviews, All)))
      ensures fault.Some? && IsNotFound(fault.value) ==> r == Ok([])
      ensures fault.None? ==> r.Ok? && forall o :: o in r.value <==> o in objects && o.objType == Reviews
      ensures r.Err? <==> fault.Some? && !IsNotFound(fault.value)
      ensures r.Err? ==> r.error == ErrorObject("Failed to fetch reviews")
    {
      MatchingMembers(objects, Query(Reviews, All));
      ReadList(objects, Query(Reviews, All), fault, "Failed to fetch reviews")
    }

    /** `getReviewsByProduct(productId)` */
    function GetReviewsByProduct(productId: string, fault: Option<Fault>): (r: Result<seq<CmsObject>, Thrown>)
      reads this
      ensures fault.None? ==> r == Ok(Matching(objects, Query(Reviews, ByMeta("product", Str(productId)))))
      ensures fault.Some? && IsNotFound(fault.value) ==> r == Ok([])
      ensures fault.None? ==> r.Ok? && forall o :: o in r.value <==>
        o in objects && o.objType == Reviews && "product" in o.metadata && o.metadata["product"] == Str(productId)
      ensures r.Err? <==> fault.Some? && !IsNotFound(fault.value)
      ensures r.Err? ==> r.error == ErrorObject("Failed to fetch reviews by product")
    {
      MatchingMembers(objects, Query(Reviews, ByMeta("product", Str(productId))));
      ReadList(objects, Query(Reviews, ByMeta("product", Str(productId))), fault,
               "Failed to fetch reviews by product")
    }

    /** `getPageBySlug(slug)` */
    function GetPageBySlug(slug: string, fault: Option<Fault>): (r: Result<Option<CmsObject>, Thrown>)
      reads this
      ensures r.Ok? && r.value.Some? ==> r.value.value in objects
                                           && r.value.value.objType == Pages && r.value.value.slug == slug
      ensures fault.None? ==> r.Ok? && (r.value.None? <==> !exists o :: o in objects && o.objType == Pages && o.slug == slug)
      ensures fault.Some? && IsNotFound(fault.value) ==> r == Ok(None)
      ensures r.Err? <==> fault.Some? && !IsNotFound(fault.value)
      ensures r.Err? ==> r.error == ErrorObject("Failed to fetch page")
    {
      ReadOneFound(objects, Query(Pages, BySlug(slug)), fault, "Failed to fetch page");
      ReadOne(objects, Query(Pages, BySlug(slug)), fault, "Failed to fetch page")
    }

    /** `getOrdersByEmail(email)`: the orders whose `customer_email` equals `email`
        exactly, `[]` when there are none. */
    function GetOrdersByEmail(email: string, fault: Option<Fault>): (r: Result<seq<CmsObject>, Thrown>)
      reads this
      ensures fault.None? ==> r == Ok(Matching(objects, EmailQuery(email)))
      ensures fault.None? ==> forall o :: o in r.value <==>
        o in objects && o.objType == Orders && "customer_email" in o.metadata && o.metadata["customer_email"] == Str(email)
      ensures fault.Some? && IsNotFound(fault.value) ==> r == Ok([])
      ensures r.Err? <==> fault.Some? && !IsNotFound(fault.value)
      ensures r.Err? ==> r.error == ErrorObject("Failed to fetch orders")
    {
      MatchingMembers(objects, EmailQuery(email));
      ReadList(objects, EmailQuery(email), fault, "Failed to fetch orders")
    }

    /** `getOrderBySessionId(sessionId)`: the first order with that `stripe_session_id`,
        or `null` when there is none or on a 404. */
    function GetOrderBySessionId(sessionId: string, fault: Option<Fault>): (r: Result<Option<CmsObject>, Thrown>)
      reads this
      ensures fault.None? ==> r.Ok? && (r.value.None? <==> Matching(objects, SessionQuery(sessionId)) == [])
      ensures fault.None? && r.value.Some? ==> r.value.value == Matching(objects, SessionQuery(sessionId))[0]
      ensures fault.Some? && IsNotFound(fault.value) ==> r == Ok(None)
      ensures r.Err? <==> fault.Some? && !IsNotFound(fault.value)
      ensures r.Err? ==> r.error == ErrorObject("Failed to fetch order")
    {
      match Find(objects, SessionQuery(sessionId), fault)
      case Ok(orders) => if |orders| == 0 then Ok(None) else Ok(Some(orders[0]))
      case Err(f) => if IsNotFound(f) then Ok(None) else Err(ErrorObject("Failed to fetch order"))
    }

    /** `createOrder(orderData)`: one insert of the order record. A failed insert is not
        caught: the fault reaches the caller and the bucket is unchanged. */
    method CreateOrder(data: OrderData, newId: string, newSlug: string, insertFault: Option<Fault>)
      returns (r: Result<CmsObject, Fault>)
      modifies this
      ensures insertFault.Some? ==> r == Err(insertFault.value) && objects == old(objects)
      ensures insertFault.None? ==> r == Ok(OrderRecord(data, newId, newSlug))
                                    && objects == old(objects) + [r.value]
    {
      if insertFault.Some? {
        return Err(insertFault.value);
      }
      var record := OrderRecord(data, newId, newSlug);
      objects := objects + [record];
      return Ok(record);
    }
  }

  /** The single readers: a record that is found matches the query. */
  lemma ReadOneFound(objects: seq<CmsObject>, q: Query, fault: Option<Fault>, failMessage: string)
    ensures var r := ReadOne(objects, q, fault, failMessage);
      r.Ok? && r.value.Some? ==> r.value.value in objects && Matches(r.value.value, q)
    ensures fault.None? ==> (ReadOne(objects, q, fault, failMessage).value.None?
                             <==> !exists o :: o in objects && Matches(o, q))
  {
    MatchingMembers(objects, q);
    var m := Matching(objects, q);
    if m != [] {
      assert m[0] in m;
    }
  }

  /** After an order is created, looking it up by its email ends with it, after the
      earlier orders for that email. */
  lemma CreatedOrderIsListed(objects: seq<CmsObject>, data: OrderData, id: string, slug: string)
    ensures Matching(objects + [OrderRecord(data, id, slug)], EmailQuery(data.customerEmail))
         == Matching(objects, EmailQuery(data.customerEmail)) + [OrderRecord(data, id, slug)]
  {
    MatchingAppend(objects, [OrderRecord(data, id, slug)], EmailQuery(data.customerEmail));
  }

  /** Creating a second order for a session id that already has one stores both, and the
      lookup by session keeps answering with the earlier one. */
  lemma SecondOrderForSession(objects: seq<CmsObject>, data: OrderData, id: string, slug: string)
    requires Matching(objects, SessionQuery(data.stripeSessionId)) != []
    ensures var after := objects + [OrderRecord(data, id, slug)];
      && |Matching(after, SessionQuery(data.stripeSessionId))|
         == |Matching(objects, SessionQuery(data.stripeSessionId))| + 1
      && Matching(after, SessionQuery(data.stripeSessionId))[0]
         == Matching(objects, SessionQuery(data.stripeSessionId))[0]
  {
    MatchingAppend(objects, [OrderRecord(data, id, slug)], SessionQuery(data.stripeSessionId));
    assert [OrderRecord(data, id, slug)][1..] == [];
  }
}
