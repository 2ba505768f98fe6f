/** The cart store shared by every screen: the cart lines, the selected
    delivery option and the last placed order, with the operations that
    update them and the totals derived from them. */
module CartContext {
  import opened Common

  /** One cart line: the menu item spread into a new object together with
      its quantity, the customer's notes and an id taken from the clock. */
  datatype CartLine = CartLine(item: MenuItem, quantity: int, notes: string, uniqueId: string)

  datatype DeliveryOption = DeliveryOption(id: string, name: string, fee: int)

  const Priority := DeliveryOption("priority", "Priority (< 20 min)", 50)
  const Standard := DeliveryOption("standard", "Standard (20 min)", 30)
  const Saver := DeliveryOption("saver", "Saver (30 min)", 15)

  /** `Object.values(DELIVERY_OPTIONS)`, in declaration order. */
  const DeliveryOptions := [Priority, Standard, Saver]

  // ----- Sums over the lines (the two `reduce` calls) -----

  function Quantity(l: CartLine): int { l.quantity }
  function LinePrice(l: CartLine): int { l.item.price * l.quantity }
  function PositiveQuantity(l: CartLine): int { if l.quantity > 0 then l.quantity else 0 }

  function Sum(s: seq<CartLine>, f: CartLine -> int): int
  {
    if |s| == 0 then 0 else f(s[0]) + Sum(s[1..], f)
  }

  /** A sum of shares that are each at least `lo` is at least `lo` per line. */
  lemma {:induction false} SumAtLeast(s: seq<CartLine>, f: CartLine -> int, lo: int)
    requires forall j :: 0 <= j < |s| ==> f(s[j]) >= lo
    ensures Sum(s, f) >= lo * |s|
  {
    if |s| > 0 {
      SumAtLeast(s[1..], f, lo);
    }
  }

  /** `cartItems.reduce((sum, item) => sum + item.quantity, 0)`: with every
      quantity positive, at least one unit per line. */
  function SumQuantities(s: seq<CartLine>): (r: int)
    ensures s == [] ==> r == 0
    ensures (forall j :: 0 <= j < |s| ==> s[j].quantity > 0) ==> r >= |s|
  {
    if forall j :: 0 <= j < |s| ==> s[j].quantity > 0 then SumAtLeast(s, Quantity, 1); Sum(s, Quantity)
    else Sum(s, Quantity)
  }

  /** `cartItems.reduce((sum, item) => sum + item.price * item.quantity, 0)`:
      never negative when no price or quantity is. */
  function SumPrices(s: seq<CartLine>): (r: int)
    ensures s == [] ==> r == 0
    ensures (forall j :: 0 <= j < |s| ==> s[j].item.price >= 0 && s[j].quantity >= 0) ==> r >= 0
  {
    if forall j :: 0 <= j < |s| ==> s[j].item.price >= 0 && s[j].quantity >= 0 then
      assert forall j :: 0 <= j < |s| ==> LinePrice(s[j]) >= 0 by {
        forall j | 0 <= j < |s| ensures LinePrice(s[j]) >= 0 {
          MulNonNegative(s[j].item.price, s[j].quantity);
        }
      }
      SumAtLeast(s, LinePrice, 0); Sum(s, LinePrice)
    else Sum(s, LinePrice)
  }

  lemma MulNonNegative(a: int, b: int)
    requires a >= 0 && b >= 0
    ensures a * b >= 0
  {
  }

  lemma {:induction false} SumConcat(a: seq<CartLine>, b: seq<CartLine>, f: CartLine -> int)
    ensures Sum(a + b, f) == Sum(a, f) + Sum(b, f)
  {
    if |a| == 0 {
      assert a + b == b;
    } else {
      assert (a + b)[1..] == a[1..] + b;
      SumConcat(a[1..], b, f);
    }
  }

  /** Replacing one line changes a sum by exactly that line's difference. */
  lemma SumUpdate(s: seq<CartLine>, k: nat, x: CartLine, f: CartLine -> int)
    requires k < |s|
    ensures Sum(s[k := x], f) == Sum(s, f) - f(s[k]) + f(x)
  {
    assert s == s[..k] + [s[k]] + s[k + 1..];
    assert s[k := x] == s[..k] + [x] + s[k + 1..];
    SumConcat(s[..k] + [s[k]], s[k + 1..], f);
    SumConcat(s[..k], [s[k]], f);
    SumConcat(s[..k] + [x], s[k + 1..], f);
    SumConcat(s[..k], [x], f);
  }

  /** The sum over a line that is appended grows by that line's share. */
  lemma SumAppend(s: seq<CartLine>, x: CartLine, f: CartLine -> int)
    ensures Sum(s + [x], f) == Sum(s, f) + f(x)
  {
    SumConcat(s, [x], f);
  }

  // ----- addToCart -----

  /** The line an add merges into: same menu item id and same notes. */
  predicate Matches(l: CartLine, itemId: string, notes: string)
  {
    l.item.id == itemId && l.notes == notes
  }

  /** `findIndex` of the first line matching (item id, notes), or -1. */
  function FindLine(lines: seq<CartLine>, itemId: string, notes: string): (k: int)
    ensures -1 <= k < |lines|
    ensures k == -1 <==> forall j :: 0 <= j < |lines| ==> !Matches(lines[j], itemId, notes)
    ensures k >= 0 ==> Matches(lines[k], itemId, notes) &&
                       forall j :: 0 <= j < k ==> !Matches(lines[j], itemId, notes)
  {
    if |lines| == 0 then -1
    else if Matches(lines[0], itemId, notes) then 0
    else
      var k := FindLine(lines[1..], itemId, notes);
      assert forall j :: 1 <= j < |lines| ==> lines[j] == lines[1..][j - 1];
      if k == -1 then -1 else k + 1
  }

  /** The lines after `addToCart(item, quantity, notes)` with the id `uniqueId`:
      the cart grows by at most one line, has a line for (item id, notes)
      afterwards, and every line for another (item id, notes) is unchanged. */
  function AddLine(lines: seq<CartLine>, item: MenuItem, quantity: int, notes: string, uniqueId: string): (r: seq<CartLine>)
    ensures |lines| <= |r| <= |lines| + 1
    ensures exists k :: 0 <= k < |r| && Matches(r[k], item.id, notes)
    ensures forall j :: 0 <= j < |lines| && !Matches(lines[j], item.id, notes) ==> r[j] == lines[j]
  {
    var k := FindLine(lines, item.id, notes);
    if k > -1 then
      var r := lines[k := lines[k].(quantity := lines[k].quantity + quantity)];
      assert Matches(r[k], item.id, notes);
      r
    else
      var r := lines + [CartLine(item, quantity, notes, uniqueId)];
      assert Matches(r[|lines|], item.id, notes);
      r
  }

  /** An add whose (id, notes) matches a line raises the first such line's
      quantity by the added amount and changes nothing else. */
  lemma AddMergesMatchingLine(lines: seq<CartLine>, item: MenuItem, quantity: int, notes: string, uniqueId: string, j: nat)
    requires j < |lines| && Matches(lines[j], item.id, notes)
    ensures var r := AddLine(lines, item, quantity, notes, uniqueId);
      && |r| == |lines|
      && exists k :: 0 <= k <= j && Matches(lines[k], item.id, notes)
           && r[k] == lines[k].(quantity := lines[k].quantity + quantity)
           && forall i :: 0 <= i < |lines| && i != k ==> r[i] == lines[i]
  {
    var k := FindLine(lines, item.id, notes);
    assert k != -1;
    assert k <= j;
  }

  /** An add that matches no line appends exactly one line at the end. */
  lemma AddAppendsNewLine(lines: seq<CartLine>, item: MenuItem, quantity: int, notes: string, uniqueId: string)
    requires forall j :: 0 <= j < |lines| ==> !Matches(lines[j], item.id, notes)
    ensures var r := AddLine(lines, item, quantity, notes, uniqueId);
      && |r| == |lines| + 1
      && r[..|lines|] == lines
      && r[|lines|] == CartLine(item, quantity, notes, uniqueId)
  {
  }

  /** The same menu item added with two different notes, to any cart, ends
      up on two different lines, and the second add leaves every line of the
      first notes as it was. */
  lemma DifferentNotesMakeSeparateLines(lines: seq<CartLine>, item: MenuItem, q1: int, n1: string, u1: string,
                                        q2: int, n2: string, u2: string)
    requires n1 != n2
    ensures var once := AddLine(lines, item, q1, n1, u1);
      var twice := AddLine(once, item, q2, n2, u2);
      && (exists i, j :: 0 <= i < |twice| && 0 <= j < |twice| && i != j &&
            Matches(twice[i], item.id, n1) && Matches(twice[j], item.id, n2))
      && (forall k :: 0 <= k < |once| && Matches(once[k], item.id, n1) ==> twice[k] == once[k])
  {
    var once := AddLine(lines, item, q1, n1, u1);
    var twice := AddLine(once, item, q2, n2, u2);
    var i :| 0 <= i < |once| && Matches(once[i], item.id, n1);
    var j :| 0 <= j < |twice| && Matches(twice[j], item.id, n2);
    assert !Matches(once[i], item.id, n2);
    assert twice[i] == once[i];
  }

  /** Adding `quantity` units raises the item count by exactly `quantity` and,
      when lines of the same item carry the same record, the goods total by
      `quantity` times the item's price, whether the add merges or appends. */
  lemma AddRaisesTotals(lines: seq<CartLine>, item: MenuItem, quantity: int, notes: string, uniqueId: string)
    ensures SumQuantities(AddLine(lines, item, quantity, notes, uniqueId)) == SumQuantities(lines) + quantity
    ensures (forall j :: 0 <= j < |lines| && lines[j].item.id == item.id ==> lines[j].item == item) ==>
              SumPrices(AddLine(lines, item, quantity, notes, uniqueId)) == SumPrices(lines) + item.price * quantity
  {
    var k := FindLine(lines, item.id, notes);
    if k > -1 {
      var x := lines[k].(quantity := lines[k].quantity + quantity);
      SumUpdate(lines, k, x, Quantity);
      SumUpdate(lines, k, x, LinePrice);
      assert LinePrice(x) == LinePrice(lines[k]) + lines[k].item.price * quantity;
    } else {
      SumAppend(lines, CartLine(item, quantity, notes, uniqueId), Quantity);
      SumAppend(lines, CartLine(item, quantity, notes, uniqueId), LinePrice);
    }
  }

  // ----- removeFromCart -----

  /** `prevItems.filter(item => item.uniqueId !== uniqueId)` */
  function RemoveLines(lines: seq<CartLine>, uniqueId: string): (r: seq<CartLine>)
    ensures |r| <= |lines|
    ensures forall l :: l in r <==> l in lines && l.uniqueId != uniqueId
    ensures (forall j :: 0 <= j < |lines| ==> lines[j].uniqueId != uniqueId) ==> r == lines
  {
    if |lines| == 0 then []
    else if lines[0].uniqueId != uniqueId then [lines[0]] + RemoveLines(lines[1..], uniqueId)
    else RemoveLines(lines[1..], uniqueId)
  }

  /** Removal works line by line, so it keeps the surviving lines in order. */
  lemma {:induction false} RemoveLinesConcat(a: seq<CartLine>, b: seq<CartLine>, uniqueId: string)
    ensures RemoveLines(a + b, uniqueId) == RemoveLines(a, uniqueId) + RemoveLines(b, uniqueId)
  {
    if |a| == 0 {
      assert a + b == b;
    } else {
      assert (a + b)[1..] == a[1..] + b;
      RemoveLinesConcat(a[1..], b, uniqueId);
    }
  }

  // ----- updateItemQuantity -----

  /** The `map` step: every line with that id gets the new quantity. */
  function SetQuantity(lines: seq<CartLine>, uniqueId: string, quantity: int): (r: seq<CartLine>)
    ensures |r| == |lines|
    ensures forall j :: 0 <= j < |lines| ==>
      r[j] == if lines[j].uniqueId == uniqueId then lines[j].(quantity := quantity) else lines[j]
  {
    seq(|lines|, j requires 0 <= j < |lines| =>
      if lines[j].uniqueId == uniqueId then lines[j].(quantity := quantity) else lines[j])
  }

  /** The `filter` step: `item.quantity > 0`. With `KeepPositiveConcat` this
      pins down the filter: it keeps the positive lines, in order. */
  function KeepPositive(lines: seq<CartLine>): (r: seq<CartLine>)
    ensures |r| <= |lines|
    ensures forall l :: l in r <==> l in lines && l.quantity > 0
    ensures (forall j :: 0 <= j < |lines| ==> lines[j].quantity > 0) ==> r == lines
  {
    if |lines| == 0 then []
    else if lines[0].quantity > 0 then [lines[0]] + KeepPositive(lines[1..])
    else KeepPositive(lines[1..])
  }

  /** The filter works line by line, so it keeps the surviving lines in
      their order and each as often as it occurred. */
  lemma {:induction false} KeepPositiveConcat(a: seq<CartLine>, b: seq<CartLine>)
    ensures KeepPositive(a + b) == KeepPositive(a) + KeepPositive(b)
  {
    if |a| == 0 {
      assert a + b == b;
    } else {
      assert (a + b)[1..] == a[1..] + b;
      KeepPositiveConcat(a[1..], b);
    }
  }

  /** `updateItemQuantity`: the map then the filter. Every line left has a
      positive quantity, and no line is added. */
  function UpdateQuantity(lines: seq<CartLine>, uniqueId: string, quantity: int): (r: seq<CartLine>)
    ensures |r| <= |lines|
    ensures forall j :: 0 <= j < |r| ==> r[j].quantity > 0
  {
    var r := KeepPositive(SetQuantity(lines, uniqueId, quantity));
    assert forall j :: 0 <= j < |r| ==> r[j] in r;
    r
  }

  /** On a cart of positive lines an update to a positive quantity drops
      no line. */
  lemma UpdateQuantityKeepsLength(lines: seq<CartLine>, uniqueId: string, quantity: int)
    ensures AllPositive(lines) && quantity > 0 ==> UpdateQuantity(lines, uniqueId, quantity) == SetQuantity(lines, uniqueId, quantity)
  {
  }

  /** The update works line by line: updating two parts of a cart separately
      and joining them is updating the whole, so the order of the lines that
      stay is kept. */
  lemma UpdateQuantityConcat(a: seq<CartLine>, b: seq<CartLine>, uniqueId: string, quantity: int)
    ensures UpdateQuantity(a + b, uniqueId, quantity) ==
            UpdateQuantity(a, uniqueId, quantity) + UpdateQuantity(b, uniqueId, quantity)
  {
    var sa, sb := SetQuantity(a, uniqueId, quantity), SetQuantity(b, uniqueId, quantity);
    SetQuantityConcat(a, b, uniqueId, quantity);
    KeepPositiveConcat(sa, sb);
  }

  lemma SetQuantityConcat(a: seq<CartLine>, b: seq<CartLine>, uniqueId: string, quantity: int)
    ensures SetQuantity(a + b, uniqueId, quantity) ==
            SetQuantity(a, uniqueId, quantity) + SetQuantity(b, uniqueId, quantity)
  {
    var s, sa, sb := SetQuantity(a + b, uniqueId, quantity), SetQuantity(a, uniqueId, quantity), SetQuantity(b, uniqueId, quantity);
    forall j | 0 <= j < |s| ensures s[j] == (sa + sb)[j] {
      if j < |a| {
        assert (a + b)[j] == a[j];
      } else {
        assert (a + b)[j] == b[j - |a|];
      }
    }
  }

  predicate AllPositive(lines: seq<CartLine>)
  {
    forall j :: 0 <= j < |lines| ==> lines[j].quantity > 0
  }

  /** After an update every line has a positive quantity; a positive new
      quantity is set on every line with that id; a non-positive one removes
      them; the other lines with positive quantity stay; and nothing else is
      in the result. */
  lemma UpdateQuantitySetsOrDrops(lines: seq<CartLine>, uniqueId: string, quantity: int)
    ensures var r := UpdateQuantity(lines, uniqueId, quantity);
      && AllPositive(r)
      && (forall l :: l in r && l.uniqueId == uniqueId ==> l.quantity == quantity)
      && (quantity <= 0 ==> forall l :: l in r ==> l.uniqueId != uniqueId)
      && (forall l :: l in lines && l.uniqueId != uniqueId && l.quantity > 0 ==> l in r)
      && (quantity > 0 ==> forall j :: 0 <= j < |lines| && lines[j].uniqueId == uniqueId ==>
                             lines[j].(quantity := quantity) in r)
      && (forall l :: l in r ==>
            (l in lines && l.uniqueId != uniqueId) ||
            exists j :: 0 <= j < |lines| && lines[j].uniqueId == uniqueId && l == lines[j].(quantity := quantity))
  {
    var s := SetQuantity(lines, uniqueId, quantity);
    var r := KeepPositive(s);
    forall j | 0 <= j < |r| ensures r[j].quantity > 0 {
      assert r[j] in r;
    }
    forall l | l in lines && l.uniqueId != uniqueId && l.quantity > 0 ensures l in r {
      var j :| 0 <= j < |lines| && lines[j] == l;
      assert s[j] == l;
    }
    if quantity > 0 {
      forall j | 0 <= j < |lines| && lines[j].uniqueId == uniqueId ensures lines[j].(quantity := quantity) in r {
        assert s[j] == lines[j].(quantity := quantity);
      }
    }
    forall l | l in r
      ensures (l in lines && l.uniqueId != uniqueId) ||
              exists j :: 0 <= j < |lines| && lines[j].uniqueId == uniqueId && l == lines[j].(quantity := quantity)
    {
      var j :| 0 <= j < |s| && s[j] == l;
      if lines[j].uniqueId != uniqueId {
        assert lines[j] == l;
      }
    }
  }

  lemma {:induction false} SumKeepPositive(s: seq<CartLine>)
    ensures SumQuantities(KeepPositive(s)) == Sum(s, PositiveQuantity)
  {
    if |s| > 0 {
      SumKeepPositive(s[1..]);
      if s[0].quantity > 0 {
        SumConcat([s[0]], KeepPositive(s[1..]), Quantity);
      }
    }
  }

  lemma {:induction false} SumPositiveOfPositive(s: seq<CartLine>)
    requires AllPositive(s)
    ensures Sum(s, PositiveQuantity) == SumQuantities(s)
  {
    if |s| > 0 {
      SumPositiveOfPositive(s[1..]);
    }
  }

  /** On a cart of positive lines with one line of that id, an update moves
      the item count from that line's quantity to the new one, or drops the
      line's share when the new quantity is not positive. */
  lemma UpdateQuantityTotals(lines: seq<CartLine>, uniqueId: string, quantity: int, k: nat)
    requires AllPositive(lines)
    requires k < |lines| && lines[k].uniqueId == uniqueId
    requires forall j :: 0 <= j < |lines| && j != k ==> lines[j].uniqueId != uniqueId
    ensures SumQuantities(UpdateQuantity(lines, uniqueId, quantity)) ==
            SumQuantities(lines) - lines[k].quantity + (if quantity > 0 then quantity else 0)
  {
    var x := lines[k].(quantity := quantity);
    var s := SetQuantity(lines, uniqueId, quantity);
    assert s == lines[k := x];
    SumKeepPositive(s);
    SumUpdate(lines, k, x, PositiveQuantity);
    SumPositiveOfPositive(lines);
  }

  /** Adding a positive quantity, removing and updating all keep every line's
      quantity positive. */
  lemma PositiveLinesPreserved(lines: seq<CartLine>, item: MenuItem, quantity: int, notes: string, uniqueId: string)
    requires AllPositive(lines)
    ensures quantity > 0 ==> AllPositive(AddLine(lines, item, quantity, notes, uniqueId))
    ensures AllPositive(RemoveLines(lines, uniqueId))
  {
    var r := RemoveLines(lines, uniqueId);
    forall j | 0 <= j < |r| ensures r[j].quantity > 0 {
      assert r[j] in r;
    }
  }

  // ----- updateDeliveryOption -----

  function FindOption(opts: seq<DeliveryOption>, id: string): (r: Option<DeliveryOption>)
    ensures r.Some? ==> r.value in opts && r.value.id == id
    ensures r.None? ==> forall o :: o in opts ==> o.id != id
  {
    if |opts| == 0 then None
    else if opts[0].id == id then Some(opts[0])
    else FindOption(opts[1..], id)
  }

  /** The option with that id, or Standard when no option has it. */
  function SelectOption(id: string): (r: DeliveryOption)
    ensures r in DeliveryOptions
  {
    match FindOption(DeliveryOptions, id)
    case Some(o) => o
    case None => Standard
  }

  lemma SelectOptionFindsOrFallsBack(id: string)
    ensures SelectOption(id) in DeliveryOptions
    ensures forall o :: o in DeliveryOptions && o.id == id ==> SelectOption(id) == o
    ensures (forall o :: o in DeliveryOptions ==> o.id != id) ==> SelectOption(id) == Standard && SelectOption(id).fee == 30
  {
  }

  /** The provider's state. */
  class CartStore {
    var items: seq<CartLine>
    var delivery: DeliveryOption
    var lastPlacedOrder: Option<map<string, Json>>

    /** The option is one of the three, and every line has a positive
        quantity: the only add comes from a stepper that never goes below
        one, and updates filter out lines that drop to zero. */
    ghost predicate Valid()
      reads this
    {
      delivery in DeliveryOptions && AllPositive(items)
    }

    /** The initial state: an empty cart, Standard delivery, no order. */
    constructor ()
      ensures Valid()
      ensures items == [] && delivery == Standard && lastPlacedOrder == None
      ensures TotalItems() == 0 && DeliveryFee() == 30
    {
      items := [];
      delivery := Standard;
      lastPlacedOrder := None;
    }

    /** `totalItems`: zero for an empty cart, at least one per line. */
    function TotalItems(): (r: int)
      reads this
      ensures items == [] ==> r == 0
      ensures Valid() ==> r >= |items|
    {
      SumQuantities(items)
    }

    /** `totalPrice`: the goods total plus the selected option's fee; just
        the fee for an empty cart, never below it when no price is negative. */
    function TotalPrice(): (r: int)
      reads this
      ensures items == [] ==> r == DeliveryFee()
      ensures Valid() && (forall j :: 0 <= j < |items| ==> items[j].item.price >= 0) ==> r >= DeliveryFee()
    {
      SumPrices(items) + delivery.fee
    }

    /** `deliveryFee`: one of the three fees. */
    function DeliveryFee(): (r: int)
      reads this
      ensures Valid() ==> r == 50 || r == 30 || r == 15
    {
      delivery.fee
    }

    method AddToCart(item: MenuItem, quantity: int, notes: string, uniqueId: string)
      requires Valid() && quantity > 0
      modifies this
      ensures Valid()
      ensures items == AddLine(old(items), item, quantity, notes, uniqueId)
      ensures delivery == old(delivery) && lastPlacedOrder == old(lastPlacedOrder)
      ensures TotalItems() == old(TotalItems()) + quantity
    {
      AddRaisesTotals(items, item, quantity, notes, uniqueId);
      PositiveLinesPreserved(items, item, quantity, notes, uniqueId);
      var k := FindLine(items, item.id, notes);
      if k > -1 {
        // the matched line's quantity is raised in place
        items := items[k := items[k].(quantity := items[k].quantity + quantity)];
      } else {
        items := items + [CartLine(item, quantity, notes, uniqueId)];
      }
    }

    method RemoveFromCart(uniqueId: string)
      requires Valid()
      modifies this
      ensures Valid()
      ensures items == RemoveLines(old(items), uniqueId)
      ensures delivery == old(delivery) && lastPlacedOrder == old(lastPlacedOrder)
    {
      items := RemoveLines(items, uniqueId);
      forall j | 0 <= j < |items| ensures items[j].quantity > 0 {
        assert items[j] in items;
      }
    }

    method UpdateItemQuantity(uniqueId: string, quantity: int)
      requires Valid()
      modifies this
      ensures Valid()
      ensures items == UpdateQuantity(old(items), uniqueId, quantity)
      ensures AllPositive(items)
      ensures delivery == old(delivery) && lastPlacedOrder == old(lastPlacedOrder)
    {
      UpdateQuantitySetsOrDrops(items, uniqueId, quantity);
      items := UpdateQuantity(items, uniqueId, quantity);
    }

    method UpdateDeliveryOption(optionId: string)
      requires Valid()
      modifies this
      ensures Valid()
      ensures delivery == SelectOption(optionId)
      ensures items == old(items) && lastPlacedOrder == old(lastPlacedOrder)
    {
      SelectOptionFindsOrFallsBack(optionId);
      delivery := SelectOption(optionId);
    }

    method ClearCart()
      requires Valid()
      modifies this
      ensures Valid()
      ensures items == [] && TotalItems() == 0
      ensures delivery == old(delivery) && lastPlacedOrder == old(lastPlacedOrder)
    {
      items := [];
    }

    method SetLastPlacedOrder(order: Option<map<string, Json>>)
      requires Valid()
      modifies this
      ensures Valid()
      ensures lastPlacedOrder == order
      ensures items == old(items) && delivery == old(delivery)
    {
      lastPlacedOrder := order;
    }
  }
}
