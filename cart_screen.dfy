/** The cart screen's handlers: the per-line `+` and `-` buttons, the goods
    subtotal, the payment choice and the checkout sequence. */
module CartScreen {
  import opened Common
  import opened CartContext
  import MockServer
  import RiderTracking

  datatype PaymentMethod = Cash | Card | PromptPay

  function PaymentId(m: PaymentMethod): string
  {
    match m
    case Cash => "cash"
    case Card => "card"
    case PromptPay => "promptpay"
  }

  /** `PAYMENT_OPTIONS`, in display order; the first is the default. */
  const PaymentOptions := [Cash, Card, PromptPay]

  /** The map region the delivery location starts at. */
  const InitialDeliveryLocation := RiderTracking.Region(13.736717, 100.534847, 0.01, 0.01)

  /** What `createOrder` gives back: the parsed response body, whatever its
      status, or a rejection (the network failed or the body was not JSON). */
  datatype CreateOrderOutcome = Created(order: map<string, Json>) | Failed

  // ----- The order payload, as JSON -----

  /** One cart line as it travels: the item's fields spread, then quantity,
      notes and unique id. */
  function LineJson(l: CartLine): (j: Json)
    ensures j.JObj? && j.fields.Keys == {"id", "name", "price", "image", "quantity", "notes", "uniqueId"}
    ensures j.fields["id"] == JStr(l.item.id) && j.fields["quantity"] == JNum(l.quantity as real)
    ensures j.fields["notes"] == JStr(l.notes) && j.fields["uniqueId"] == JStr(l.uniqueId)
  {
    JObj(map["id" := JStr(l.item.id), "name" := JStr(l.item.name), "price" := JNum(l.item.price as real),
             "image" := JStr(l.item.image), "quantity" := JNum(l.quantity as real),
             "notes" := JStr(l.notes), "uniqueId" := JStr(l.uniqueId)])
  }

  function LinesJson(lines: seq<CartLine>): (j: Json)
    ensures j.JArr? && |j.elems| == |lines|
    ensures forall k :: 0 <= k < |lines| ==> j.elems[k] == LineJson(lines[k])
  {
    JArr(seq(|lines|, k requires 0 <= k < |lines| => LineJson(lines[k])))
  }

  function OptionJson(o: DeliveryOption): Json
  {
    JObj(map["id" := JStr(o.id), "name" := JStr(o.name), "fee" := JNum(o.fee as real)])
  }

  function RegionJson(r: RiderTracking.Region): Json
  {
    JObj(map["latitude" := JNum(r.lat), "longitude" := JNum(r.lng),
             "latitudeDelta" := JNum(r.latDelta), "longitudeDelta" := JNum(r.lngDelta)])
  }

  /** `{ cartItems, totalPrice, deliveryOption, paymentMethod, deliveryLocation }` */
  function Payload(items: seq<CartLine>, totalPrice: int, option: DeliveryOption,
                   payment: PaymentMethod, location: RiderTracking.Region): (body: map<string, Json>)
    ensures body.Keys == {"cartItems", "totalPrice", "deliveryOption", "paymentMethod", "deliveryLocation"}
    ensures body["cartItems"] == LinesJson(items) && body["totalPrice"] == JNum(totalPrice as real)
    ensures body["paymentMethod"] == JStr(PaymentId(payment))
  {
    map["cartItems" := LinesJson(items), "totalPrice" := JNum(totalPrice as real),
        "deliveryOption" := OptionJson(option), "paymentMethod" := JStr(PaymentId(payment)),
        "deliveryLocation" := RegionJson(location)]
  }

  /** `line` is the `k`-th line shown, and no other line shares its id. */
  predicate ShownOnce(lines: seq<CartLine>, line: CartLine)
  {
    exists k :: 0 <= k < |lines| && lines[k] == line && IdOnlyAt(lines, k)
  }

  /** No line but the `k`-th carries its unique id. */
  predicate IdOnlyAt(lines: seq<CartLine>, k: nat)
    requires k < |lines|
  {
    forall j :: 0 <= j < |lines| && j != k ==> lines[j].uniqueId != lines[k].uniqueId
  }

  /** The `+` button sets a line of positive quantity to one more: the line
      stays, the item count grows by one. */
  lemma IncreaseAddsOne(lines: seq<CartLine>, k: nat)
    requires AllPositive(lines) && k < |lines|
    requires IdOnlyAt(lines, k)
    ensures var r := UpdateQuantity(lines, lines[k].uniqueId, lines[k].quantity + 1);
      && lines[k].(quantity := lines[k].quantity + 1) in r
      && SumQuantities(r) == SumQuantities(lines) + 1
      && |r| == |lines|
  {
    UpdateQuantitySetsOrDrops(lines, lines[k].uniqueId, lines[k].quantity + 1);
    UpdateQuantityTotals(lines, lines[k].uniqueId, lines[k].quantity + 1, k);
    var s := SetQuantity(lines, lines[k].uniqueId, lines[k].quantity + 1);
    assert AllPositive(s);
  }

  /** The `-` button lowers a line by one; at quantity one the cart's
      positive-quantity filter removes the line altogether. */
  lemma DecreaseRemovesAtOne(lines: seq<CartLine>, k: nat)
    requires AllPositive(lines) && k < |lines|
    requires IdOnlyAt(lines, k)
    ensures var r := UpdateQuantity(lines, lines[k].uniqueId, lines[k].quantity - 1);
      && SumQuantities(r) == SumQuantities(lines) - 1
      && (lines[k].quantity == 1 <==> forall l :: l in r ==> l.uniqueId != lines[k].uniqueId)
      && (lines[k].quantity > 1 ==> lines[k].(quantity := lines[k].quantity - 1) in r)
  {
    UpdateQuantitySetsOrDrops(lines, lines[k].uniqueId, lines[k].quantity - 1);
    UpdateQuantityTotals(lines, lines[k].uniqueId, lines[k].quantity - 1, k);
  }

  /** The body the server receives for a checkout carries no `status` or
      `orderId`, so the order it answers with is pending, has the server's
      id and echoes every payload field. */
  lemma CheckoutOrderFields(items: seq<CartLine>, totalPrice: int, option: DeliveryOption,
                            payment: PaymentMethod, location: RiderTracking.Region, now: nat)
    ensures var body := Payload(items, totalPrice, option, payment, location);
      var resp := MockServer.PostOrder(body, now);
      && resp.status == 201
      && resp.body.fields["status"] == JStr("pending")
      && resp.body.fields["orderId"] == JStr(MockServer.OrderId(now))
      && (forall key :: key in body ==> key in resp.body.fields && resp.body.fields[key] == body[key])
  {
    var body := Payload(items, totalPrice, option, payment, location);
    assert "status" !in body && "orderId" !in body && "restaurantOriginLocation" !in body;
  }

  /** Nor does it carry `completed`, so the returned order starts a trip
      from the server's fixed origin on the home screen. */
  lemma CheckoutOrderStartsTrip(items: seq<CartLine>, totalPrice: int, option: DeliveryOption,
                                payment: PaymentMethod, location: RiderTracking.Region, now: nat,
                                screen: RiderTracking.Tracker)
    requires RiderTracking.Inv(screen)
    ensures var order := MockServer.NewOrder(Payload(items, totalPrice, option, payment, location), now);
      var t := RiderTracking.OrderChanged(screen, Some(order));
      && t.restaurant == Some(RiderTracking.FallbackOrigin)
      && t.status == RiderTracking.Searching && t.countdown == RiderTracking.TotalDuration
      && RiderTracking.TimerPending(t)
  {
    var body := Payload(items, totalPrice, option, payment, location);
    var order := MockServer.NewOrder(body, now);
    assert "completed" !in order;
    RiderTracking.OrderChangedStarts(screen, order);
    RiderTracking.ServerOrderStartsAtOrigin(screen, body, now);
  }

  /** The `+` button on a line the screen shows once, in terms of the item
      count the header displays. */
  lemma PlusOnShownLine(lines: seq<CartLine>, line: CartLine)
    requires AllPositive(lines)
    ensures ShownOnce(lines, line) ==>
      var up := UpdateQuantity(lines, line.uniqueId, line.quantity + 1);
      SumQuantities(up) == SumQuantities(lines) + 1 && |up| == |lines|
  {
    if ShownOnce(lines, line) {
      var k :| 0 <= k < |lines| && lines[k] == line && IdOnlyAt(lines, k);
      UpdateQuantityTotals(lines, line.uniqueId, line.quantity + 1, k);
      UpdateQuantityKeepsLength(lines, line.uniqueId, line.quantity + 1);
    }
  }

  /** The `-` button on a line the screen shows once. */
  lemma MinusOnShownLine(lines: seq<CartLine>, line: CartLine)
    requires AllPositive(lines)
    ensures ShownOnce(lines, line) ==>
      var down := UpdateQuantity(lines, line.uniqueId, line.quantity - 1);
      && SumQuantities(down) == SumQuantities(lines) - 1
      && (line.quantity == 1 <==> forall l :: l in down ==> l.uniqueId != line.uniqueId)
  {
    if ShownOnce(lines, line) {
      var k :| 0 <= k < |lines| && lines[k] == line && IdOnlyAt(lines, k);
      DecreaseRemovesAtOne(lines, k);
    }
  }

  class CartScreenState {
    var payment: PaymentMethod
    var deliveryLocation: RiderTracking.Region

    /** The screen opens with cash selected and the default location. */
    constructor ()
      ensures payment == PaymentOptions[0] == Cash
      ensures deliveryLocation == InitialDeliveryLocation
    {
      payment := Cash;
      deliveryLocation := InitialDeliveryLocation;
    }

    method SelectPayment(m: PaymentMethod)
      modifies this
      ensures payment == m && deliveryLocation == old(deliveryLocation)
    {
      payment := m;
    }

    method IncreaseQuantity(cart: CartStore, line: CartLine)
      requires cart.Valid()
      modifies cart
      ensures cart.Valid()
      ensures cart.items == UpdateQuantity(old(cart.items), line.uniqueId, line.quantity + 1)
      ensures cart.delivery == old(cart.delivery) && cart.lastPlacedOrder == old(cart.lastPlacedOrder)
      ensures ShownOnce(old(cart.items), line) ==>
                cart.TotalItems() == old(cart.TotalItems()) + 1 && |cart.items| == |old(cart.items)|
    {
      PlusOnShownLine(cart.items, line);
      cart.UpdateItemQuantity(line.uniqueId, line.quantity + 1);
    }

    method DecreaseQuantity(cart: CartStore, line: CartLine)
      requires cart.Valid()
      modifies cart
      ensures cart.Valid()
      ensures cart.items == UpdateQuantity(old(cart.items), line.uniqueId, line.quantity - 1)
      ensures cart.delivery == old(cart.delivery) && cart.lastPlacedOrder == old(cart.lastPlacedOrder)
      ensures ShownOnce(old(cart.items), line) ==>
                && cart.TotalItems() == old(cart.TotalItems()) - 1
                && (line.quantity == 1 <==> forall l :: l in cart.items ==> l.uniqueId != line.uniqueId)
    {
      MinusOnShownLine(cart.items, line);
      cart.UpdateItemQuantity(line.uniqueId, line.quantity - 1);
    }

    /** The goods subtotal shown: `totalPrice - deliveryFee`. */
    function Subtotal(cart: CartStore): (r: int)
      reads cart
      ensures r == SumPrices(cart.items)
    {
      cart.TotalPrice() - cart.DeliveryFee()
    }

    /** The checkout button. The payload is built from the current state and
        sent; on success the cart is cleared and only then the returned order
        recorded; on failure neither happens. The button is only shown for a
        cart with at least one line. */
    method Checkout(cart: CartStore, outcome: CreateOrderOutcome) returns (payload: map<string, Json>)
      requires cart.Valid() && |cart.items| > 0
      modifies cart
      ensures cart.Valid()
      ensures payload == Payload(old(cart.items), old(cart.TotalPrice()), old(cart.delivery), payment, deliveryLocation)
      ensures cart.delivery == old(cart.delivery)
      ensures outcome.Created? ==> cart.items == [] && cart.lastPlacedOrder == Some(outcome.order)
      ensures outcome.Failed? ==> cart.items == old(cart.items) && cart.lastPlacedOrder == old(cart.lastPlacedOrder)
    {
      var items, total, option := cart.items, cart.TotalPrice(), cart.delivery;
      payload := Payload(items, total, option, payment, deliveryLocation);
      match outcome {
        case Created(order) =>
          cart.ClearCart();
          cart.SetLastPlacedOrder(Some(order));
        case Failed =>
      }
    }
  }
}
