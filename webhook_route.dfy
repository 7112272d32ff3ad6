/** app/api/webhook/route.ts: `POST /api/webhook`, the payment provider's event callback.
    A chain of guards decides whether the delivery is answered at once or leads to one
    order write; the write's failure is swallowed. */
module WebhookRoute {
  import opened Wrappers
  import opened Strings
  import opened Cosmic

  /** The fields of a checkout session the handler reads; `customerEmail` is
      `customer_details?.email` and `itemsJson` is `metadata?.items_json`. */
  datatype Session = Session(
    id: string,
    customerEmail: Option<string>,
    itemsJson: Option<string>,
    amountTotal: Option<int>)

  datatype Event = Event(eventType: string, session: Session)

  /** What `stripe.webhooks.constructEvent` does with the delivery: a verified event or a
      throw. */
  datatype Verification = Verified(event: Event) | Rejected(thrown: Thrown)

  datatype Body = ReceivedBody | ErrorBody(error: string)

  datatype Response = Response(status: int, body: Body)

  /** The guard chain's verdict: answer now, or write the order for this session. */
  datatype Decision = Answer(response: Response) | WriteOrder(session: Session)

  const Received := Response(200, ReceivedBody)
  const CompletedEvent := "checkout.session.completed"

  /** The guards in their order: the signature header, then the secret, then the
      verification, then the event type. */
  function Route(signature: Option<string>, webhookSecret: Option<string>, verification: Verification): (d: Decision)
    ensures !Truthy(signature) ==> d == Answer(Response(400, ErrorBody("Missing stripe-signature header")))
    ensures Truthy(signature) && !Truthy(webhookSecret) ==> d == Answer(Response(500, ErrorBody("Webhook secret not configured")))
    ensures Truthy(signature) && Truthy(webhookSecret) && verification.Rejected? ==>
      d == Answer(Response(400, ErrorBody("Webhook Error: " + MessageOr(verification.thrown, "Unknown error"))))
    ensures d.WriteOrder? <==> Truthy(signature) && Truthy(webhookSecret) && verification.Verified?
                               && verification.event.eventType == CompletedEvent
    ensures d.WriteOrder? ==> d.session == verification.event.session
    ensures (Truthy(signature) && Truthy(webhookSecret) && verification.Verified?
             && verification.event.eventType != CompletedEvent) ==> d == Answer(Received)
  {
    if !Truthy(signature) then Answer(Response(400, ErrorBody("Missing stripe-signature header")))
    else if !Truthy(webhookSecret) then Answer(Response(500, ErrorBody("Webhook secret not configured")))
    else match verification
      case Rejected(t) => Answer(Response(400, ErrorBody("Webhook Error: " + MessageOr(t, "Unknown error"))))
      case Verified(event) =>
        if event.eventType == CompletedEvent then WriteOrder(event.session) else Answer(Received)
  }

  /** `generateOrderNumber()`. `nowMillis` is `Date.now()` and `randomText` is the text of
      `Math.random().toString(36)`. */
  function GenerateOrderNumber(nowMillis: nat, randomText: string): (r: string)
    ensures StartsWith(r, "CC-")
  {
    var timestamp := ToUpperAscii(ToRadix(nowMillis, 36));
    var random := ToUpperAscii(Substring(randomText, 2, 6));
    "CC-" + timestamp + "-" + random
  }

  /** The order number splits on '-' into "CC", a base-36 timestamp that reads back as
      `nowMillis`, and at most four characters of the random text. */
  lemma OrderNumberParts(nowMillis: nat, randomText: string)
    requires '-' !in randomText
    ensures var parts := Split(GenerateOrderNumber(nowMillis, randomText), '-');
      && |parts| == 3 && parts[0] == "CC"
      && FromRadix(parts[1], 36) == nowMillis
      && |parts[2]| <= 4
  {
    var timestamp := ToUpperAscii(ToRadix(nowMillis, 36));
    var random := ToUpperAscii(Substring(randomText, 2, 6));
    OrderNumberSplit(nowMillis, randomText, timestamp, random);
    RadixRoundTrip(nowMillis, 36);
  }

  /** The three pieces of an order number. */
  lemma OrderNumberSplit(nowMillis: nat, randomText: string, timestamp: string, random: string)
    requires '-' !in randomText
    requires timestamp == ToUpperAscii(ToRadix(nowMillis, 36))
    requires random == ToUpperAscii(Substring(randomText, 2, 6))
    ensures Split(GenerateOrderNumber(nowMillis, randomText), '-') == ["CC", timestamp, random]
  {
    assert '-' !in timestamp by {
      forall i | 0 <= i < |timestamp| ensures timestamp[i] != '-' {
        assert DigitValue(ToRadix(nowMillis, 36)[i]) >= 0;
      }
    }
    assert '-' !in random by {
      var sub := Substring(randomText, 2, 6);
      forall i | 0 <= i < |random| ensures random[i] != '-' {
        assert sub[i] in randomText by {
          var a := if 2 < |randomText| then 2 else |randomText|;
          assert sub[i] == randomText[a + i];
        }
      }
    }
    assert GenerateOrderNumber(nowMillis, randomText) == "CC" + ['-'] + timestamp + ['-'] + random;
    SplitThree("CC", timestamp, random, '-');
  }

  /** Two order numbers made at different milliseconds differ, whatever the random text. */
  lemma OrderNumbersDifferInTime(t1: nat, t2: nat, rand1: string, rand2: string)
    requires t1 != t2 && '-' !in rand1 && '-' !in rand2
    ensures GenerateOrderNumber(t1, rand1) != GenerateOrderNumber(t2, rand2)
  {
    OrderNumberParts(t1, rand1);
    OrderNumberParts(t2, rand2);
  }

  /** The `createOrder` argument built from a completed session. */
  function OrderDataFor(session: Session, orderNumber: string): (d: OrderData)
    ensures d.orderNumber == orderNumber && d.stripeSessionId == session.id
    ensures d.customerEmail == if session.customerEmail.Some? then session.customerEmail.value else "unknown@example.com"
    ensures d.itemsJson == if session.itemsJson.Some? then session.itemsJson.value else "[]"
    ensures d.totalAmount * 100.0 == (if session.amountTotal.Some? then session.amountTotal.value else 0) as real
  {
    OrderData(
      orderNumber,
      session.customerEmail.GetOr("unknown@example.com"),
      session.itemsJson.GetOr("[]"),
      session.amountTotal.GetOr(0) as real / 100.0,
      session.id)
  }

  /** A session paid at 2400 cents records 24.00 with the fallbacks for the rest. */
  lemma PaidSessionWithoutDetails(id: string, orderNumber: string)
    ensures OrderDataFor(Session(id, None, None, Some(2400)), orderNumber)
         == OrderData(orderNumber, "unknown@example.com", "[]", 24.0, id)
  {
  }

  /** The handler. `nowMillis`, `randomText`, `newId` and `newSlug` stand for the clock,
      the random source and the identifiers the CMS assigns; `insertFault` is the CMS
      write failing. Every delivery the guards let through appends exactly one order,
      unless the write fails; either way the answer is `{ received: true }`. */
  method Post(bucket: Bucket, signature: Option<string>, webhookSecret: Option<string>,
              verification: Verification, nowMillis: nat, randomText: string,
              newId: string, newSlug: string, insertFault: Option<Fault>)
    returns (response: Response)
    modifies bucket
    ensures Route(signature, webhookSecret, verification).Answer? ==>
      response == Route(signature, webhookSecret, verification).response && bucket.objects == old(bucket.objects)
    ensures Route(signature, webhookSecret, verification).WriteOrder? ==> response == Received
    ensures Route(signature, webhookSecret, verification).WriteOrder? ==>
      bucket.objects == old(bucket.objects) + (if insertFault.Some? then [] else
        [OrderRecord(OrderDataFor(verification.event.session, GenerateOrderNumber(nowMillis, randomText)), newId, newSlug)])
  {
    var decision := Route(signature, webhookSecret, verification);
    match decision
    case Answer(r) =>
      response := r;
    case WriteOrder(session) =>
      var data := OrderDataFor(session, GenerateOrderNumber(nowMillis, randomText));
      var _ := bucket.CreateOrder(data, newId, newSlug, insertFault);
      response := Received;
  }

  /** A client: the same completed event delivered twice is recorded twice, under two
      order numbers, and both orders carry the same session id. */
  method DeliveredTwice(bucket: Bucket, signature: string, secret: string, session: Session,
                        now1: nat, now2: nat, rand1: string, rand2: string)
    requires signature != "" && secret != "" && now1 != now2 && '-' !in rand1 && '-' !in rand2
    modifies bucket
    ensures bucket.objects == old(bucket.objects) + [
      OrderRecord(OrderDataFor(session, GenerateOrderNumber(now1, rand1)), "order-1", "order-1"),
      OrderRecord(OrderDataFor(session, GenerateOrderNumber(now2, rand2)), "order-2", "order-2")]
    ensures GenerateOrderNumber(now1, rand1) != GenerateOrderNumber(now2, rand2)
  {
    var event := Verified(Event(CompletedEvent, session));
    var r1 := Post(bucket, Some(signature), Some(secret), event, now1, rand1, "order-1", "order-1", None);
    var r2 := Post(bucket, Some(signature), Some(secret), event, now2, rand2, "order-2", "order-2", None);
    OrderNumbersDifferInTime(now1, now2, rand1, rand2);
  }
}
