/** app/api/orders/route.ts: `GET /api/orders?email=…`, the order lookup. */
module OrdersRoute {
  import opened Wrappers
  import opened Cosmic

  datatype Body = OrdersBody(orders: seq<CmsObject>) | ErrorBody(error: string)

  datatype Response = Response(status: int, body: Body)

  /** `GET(request)`: `email` is the `email` search parameter (null when absent) and
      `fault` the CMS transport failure, if any, of the lookup. */
  function Get(bucket: Bucket, email: Option<string>, fault: Option<Fault>): (r: Response)
    reads bucket
    ensures !Truthy(email) ==> r == Response(400, ErrorBody("Email is required"))
    ensures Truthy(email) && fault.None? ==>
      r == Response(200, OrdersBody(Matching(bucket.objects, EmailQuery(email.value))))
    ensures Truthy(email) && fault.Some? && IsNotFound(fault.value) ==> r == Response(200, OrdersBody([]))
    ensures Truthy(email) && fault.Some? && !IsNotFound(fault.value) ==>
      r == Response(500, ErrorBody("Failed to look up orders"))
    ensures r.status == 200 <==> Truthy(email) && bucket.GetOrdersByEmail(email.value, fault).Ok?
  {
    if !Truthy(email) then Response(400, ErrorBody("Email is required"))
    else match bucket.GetOrdersByEmail(email.value, fault)
      case Ok(orders) => Response(200, OrdersBody(orders))
      case Err(_) => Response(500, ErrorBody("Failed to look up orders"))
  }

  /** An address with no orders is a success with an empty list, not an error. */
  lemma NoOrdersIsSuccess(bucket: Bucket, email: string)
    requires email != ""
    requires forall o :: o in bucket.objects ==> !Matches(o, EmailQuery(email))
    ensures Get(bucket, Some(email), None) == Response(200, OrdersBody([]))
  {
    MatchingNone(bucket.objects, EmailQuery(email));
  }

  /** Every order listed for an address carries exactly that address. */
  lemma ListedOrdersBelongToEmail(bucket: Bucket, email: string)
    requires email != ""
    ensures var r := Get(bucket, Some(email), None);
      forall o :: o in r.body.orders ==>
        o in bucket.objects && o.objType == Orders && o.metadata["customer_email"] == Str(email)
  {
    MatchingMembers(bucket.objects, EmailQuery(email));
  }
}
