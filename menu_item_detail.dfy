/** The menu item screen: a quantity stepper that never goes below one, a
    notes field, the add-to-cart button and the total it shows. */
module MenuItemDetail {
  import opened Common
  import opened CartContext

  /** The `+` button's updater: always one more. */
  function Increased(quantity: int): (q: int)
    ensures q > quantity && q - quantity == 1
  {
    quantity + 1
  }

  /** The `-` button's updater: one less, but never below one. */
  function Decreased(quantity: int): (q: int)
    ensures q >= 1
    ensures quantity > 1 ==> q == quantity - 1
    ensures quantity <= 1 ==> q == 1
  {
    if quantity > 1 then quantity - 1 else 1
  }

  /** From any quantity of at least one, `-` keeps it at least one, and the
      two buttons undo each other except that `-` at one stays at one. */
  lemma StepperRoundTrip(quantity: int)
    requires quantity >= 1
    ensures Decreased(quantity) >= 1 && Increased(quantity) >= 2
    ensures Decreased(Increased(quantity)) == quantity
    ensures quantity > 1 ==> Increased(Decreased(quantity)) == quantity
    ensures quantity == 1 ==> Decreased(quantity) == 1 && Increased(Decreased(quantity)) == 2
  {
  }

  /** A sequence of button presses, `true` for `+` and `false` for `-`. */
  function Presses(quantity: int, buttons: seq<bool>): int
    decreases |buttons|
  {
    if |buttons| == 0 then quantity
    else Presses(if buttons[0] then Increased(quantity) else Decreased(quantity), buttons[1..])
  }

  function CountTrue(buttons: seq<bool>): nat
  {
    if |buttons| == 0 then 0 else (if buttons[0] then 1 else 0) + CountTrue(buttons[1..])
  }

  /** Whatever the presses, the quantity stays at least one and never
      exceeds the start plus the number of `+` presses. */
  lemma {:induction false} PressesStayPositive(quantity: int, buttons: seq<bool>)
    requires quantity >= 1
    ensures 1 <= Presses(quantity, buttons) <= quantity + CountTrue(buttons)
    decreases |buttons|
  {
    if |buttons| > 0 {
      var next := if buttons[0] then Increased(quantity) else Decreased(quantity);
      PressesStayPositive(next, buttons[1..]);
    }
  }

  class MenuItemDetailScreen {
    const item: MenuItem
    var quantity: int
    var notes: string

    ghost predicate Valid()
      reads this
    {
      quantity >= 1
    }

    /** The screen opens with quantity one and empty notes. */
    constructor (item: MenuItem)
      ensures Valid()
      ensures this.item == item && quantity == 1 && notes == ""
    {
      this.item := item;
      quantity := 1;
      notes := "";
    }

    method IncreaseQuantity()
      requires Valid()
      modifies this
      ensures Valid()
      ensures quantity == old(quantity) + 1 && notes == old(notes)
    {
      quantity := Increased(quantity);
    }

    method DecreaseQuantity()
      requires Valid()
      modifies this
      ensures Valid()
      ensures quantity == (if old(quantity) > 1 then old(quantity) - 1 else 1) && notes == old(notes)
    {
      quantity := Decreased(quantity);
    }

    method SetNotes(text: string)
      requires Valid()
      modifies this
      ensures Valid()
      ensures notes == text && quantity == old(quantity)
    {
      notes := text;
    }

    /** The total on the add-to-cart button: the price of the chosen
        quantity, so at least one unit's price. */
    function ButtonTotal(): (total: int)
      reads this
      ensures quantity >= 1 && item.price >= 0 ==> total >= item.price
    {
      if quantity >= 1 && item.price >= 0 then MulNonNegative(quantity - 1, item.price); quantity * item.price
      else quantity * item.price
    }

    /** Hands the current quantity and notes to the cart unchanged. The
        cart's item count grows by the quantity and, when the cart's lines
        for this item carry the same record, its goods total by the amount
        the button shows. */
    method AddToCart(cart: CartStore, uniqueId: string)
      requires Valid() && cart.Valid()
      modifies cart
      ensures cart.Valid()
      ensures cart.items == AddLine(old(cart.items), item, quantity, notes, uniqueId)
      ensures cart.delivery == old(cart.delivery) && cart.lastPlacedOrder == old(cart.lastPlacedOrder)
      ensures cart.TotalItems() == old(cart.TotalItems()) + quantity
      ensures (forall j :: 0 <= j < |old(cart.items)| && old(cart.items)[j].item.id == item.id ==>
                 old(cart.items)[j].item == item) ==>
              SumPrices(cart.items) == old(SumPrices(cart.items)) + ButtonTotal()
    {
      AddRaisesTotals(cart.items, item, quantity, notes, uniqueId);
      cart.AddToCart(item, quantity, notes, uniqueId);
    }
  }
}
