/** app/api/checkout/route.ts: `POST /api/checkout` turns the posted cart into one payment
    session request. The payment provider's answer is an input of the handler. */
module CheckoutRoute {
  import opened Wrappers
  import opened CartUtils

  /** What `request.json()` gives: the posted object's `items` (absent or present), or a
      thrown parse failure. */
  datatype RequestBody = Parsed(items: Option<seq<CartItem>>) | Unreadable(thrown: Thrown)

  /** One `line_items` entry: `price_data` (currency, product name and images, unit amount
      in cents) and the quantity. */
  datatype LineItem = LineItem(
    currency: string,
    name: string,
    images: seq<string>,
    unitAmount: int,
    quantity: int)

  /** One entry of the `items_json` snapshot. */
  datatype ItemSnapshot = ItemSnapshot(
    productId: string,
    slug: string,
    name: string,
    price: real,
    quantity: int)

  /** The argument of `stripe.checkout.sessions.create`; `itemsJson` holds the snapshot
      before `JSON.stringify`. */
  datatype SessionRequest = SessionRequest(
    mode: string,
    paymentMethodTypes: seq<string>,
    lineItems: seq<LineItem>,
    successUrl: string,
    cancelUrl: string,
    itemsJson: seq<ItemSnapshot>)

  /** What the payment provider answers: a session (whose `url` may be null), or a throw. */
  datatype SessionOutcome = Created(url: Option<string>) | Failed(thrown: Thrown)

  datatype Body = UrlBody(url: Option<string>) | ErrorBody(error: string)

  datatype Response = Response(status: int, body: Body)

  /** The handler's answer and the session request it made, if any. */
  datatype Handled = Handled(response: Response, sessionRequest: Option<SessionRequest>)

  const DefaultOrigin := "http://localhost:3000"
  const ImageParams := "?w=400&h=400&fit=crop&auto=format,compress"

  /** `Math.round(x)`: the nearest integer, halves going up. */
  function RoundHalfUp(x: real): (r: int)
    ensures r as real <= x + 0.5 < r as real + 1.0
  {
    (x + 0.5).Floor
  }

  /** A whole number is its own rounding; in particular a price with whole cents gives
      exactly that many cents. */
  lemma RoundWhole(n: int)
    ensures RoundHalfUp(n as real) == n
  {
  }

  /** The rounded amount is within half a cent of `price * 100`. */
  lemma UnitAmountClose(price: real)
    ensures -0.5 < RoundHalfUp(price * 100.0) as real - price * 100.0 <= 0.5
  {
  }

  /** `images`: one resized imgix URL when the line has an image, none otherwise. */
  function ImagesOf(item: CartItem): (r: seq<string>)
    ensures item.image.None? <==> r == []
    ensures item.image.Some? ==> r == [item.image.value.imgixUrl + ImageParams]
  {
    match item.image
    case None => []
    case Some(img) => [img.imgixUrl + ImageParams]
  }

  /** The payment line for one cart line. */
  function ToLineItem(item: CartItem): (l: LineItem)
    ensures l.currency == "usd" && l.name == item.name && l.quantity == item.quantity
    ensures l.images == ImagesOf(item)
    ensures l.unitAmount as real <= item.price * 100.0 + 0.5 < l.unitAmount as real + 1.0
  {
    LineItem("usd", item.name, ImagesOf(item), RoundHalfUp(item.price * 100.0), item.quantity)
  }

  /** `body.items.map(...)` for `line_items`: one payment line per cart line, in order. */
  function LineItems(items: seq<CartItem>): (r: seq<LineItem>)
    ensures |r| == |items|
    ensures forall i :: 0 <= i < |items| ==> r[i] == ToLineItem(items[i])
  {
    if items == [] then [] else [ToLineItem(items[0])] + LineItems(items[1..])
  }

  /** The snapshot of one cart line: everything except the image. */
  function ToSnapshot(item: CartItem): (s: ItemSnapshot)
    ensures s.productId == item.productId && s.slug == item.slug && s.name == item.name
    ensures s.price == item.price && s.quantity == item.quantity
  {
    ItemSnapshot(item.productId, item.slug, item.name, item.price, item.quantity)
  }

  /** `body.items.map(...)` for `items_json`. */
  function Snapshots(items: seq<CartItem>): (r: seq<ItemSnapshot>)
    ensures |r| == |items|
    ensures forall i :: 0 <= i < |items| ==> r[i] == ToSnapshot(items[i])
  {
    if items == [] then [] else [ToSnapshot(items[0])] + Snapshots(items[1..])
  }

  /** The snapshot keeps enough to rebuild every line except its image: putting back the
      image of each line gives the cart that was posted. */
  lemma SnapshotsRestoreItems(items: seq<CartItem>)
    ensures var s := Snapshots(items);
      forall i :: 0 <= i < |items| ==>
        CartItem(s[i].productId, s[i].slug, s[i].name, s[i].price, s[i].quantity, items[i].image) == items[i]
  {
  }

  /** The payment lines and the snapshot describe the same lines: same count, and line by
      line the same name and quantity. */
  lemma LinesMatchSnapshot(items: seq<CartItem>)
    ensures |LineItems(items)| == |Snapshots(items)|
    ensures forall i :: 0 <= i < |items| ==>
      LineItems(items)[i].name == Snapshots(items)[i].name
      && LineItems(items)[i].quantity == Snapshots(items)[i].quantity
  {
  }

  /** The session request for a non-empty cart posted from `origin`. */
  function SessionRequestFor(items: seq<CartItem>, origin: string): (req: SessionRequest)
    ensures req.mode == "payment" && req.paymentMethodTypes == ["card"]
    ensures req.lineItems == LineItems(items) && req.itemsJson == Snapshots(items)
    ensures req.successUrl == origin + "/checkout/success?session_id={CHECKOUT_SESSION_ID}"
    ensures req.cancelUrl == origin + "/cart"
  {
    SessionRequest("payment", ["card"], LineItems(items),
      origin + "/checkout/success?session_id={CHECKOUT_SESSION_ID}",
      origin + "/cart",
      Snapshots(items))
  }

  /** `POST(request)`. `originHeader` is the `origin` request header and `outcome` what the
      payment provider answers if a session is requested. */
  function Post(body: RequestBody, originHeader: Option<string>, outcome: SessionOutcome): (h: Handled)
    ensures body.Unreadable? ==>
      h == Handled(Response(500, ErrorBody(MessageOr(body.thrown, "Internal server error"))), None)
    ensures body.Parsed? && (body.items.None? || body.items.value == []) ==>
      h == Handled(Response(400, ErrorBody("Cart is empty")), None)
    ensures h.sessionRequest.Some? <==> body.Parsed? && body.items.Some? && body.items.value != []
    ensures h.sessionRequest.Some? ==>
      && h.sessionRequest.value == SessionRequestFor(body.items.value, originHeader.GetOr(DefaultOrigin))
      && h.response == match outcome
         case Created(url) => Response(200, UrlBody(url))
         case Failed(t) => Response(500, ErrorBody(MessageOr(t, "Internal server error")))
  {
    match body
    case Unreadable(t) => Handled(Response(500, ErrorBody(MessageOr(t, "Internal server error"))), None)
    case Parsed(items) =>
      if items.None? || |items.value| == 0 then Handled(Response(400, ErrorBody("Cart is empty")), None)
      else
        var origin := originHeader.GetOr(DefaultOrigin);
        var req := SessionRequestFor(items.value, origin);
        match outcome
        case Created(url) => Handled(Response(200, UrlBody(url)), Some(req))
        case Failed(t) => Handled(Response(500, ErrorBody(MessageOr(t, "Internal server error"))), Some(req))
  }

  /** A one-line cart of two $19.99 items becomes one line of 1999 cents, quantity 2. */
  lemma TwoAtNineteenNinetyNine(item: CartItem)
    requires item.price == 19.99 && item.quantity == 2 && item.image.None?
    ensures var h := Post(Parsed(Some([item])), None, Created(Some("https://pay.example/s")));
      && h.response == Response(200, UrlBody(Some("https://pay.example/s")))
      && h.sessionRequest.Some?
      && h.sessionRequest.value.lineItems == [LineItem("usd", item.name, [], 1999, 2)]
      && h.sessionRequest.value.cancelUrl == "http://localhost:3000/cart"
  {
    assert item.price * 100.0 == 1999.0;
    RoundWhole(1999);
  }
}
