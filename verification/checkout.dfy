/**
 * The checkout page: the ten required fields of the form, the tip tiers and their texts,
 * the order total, the order number, which screen shows, and `handleSubmit`, which places
 * the order and clears the cart. Amounts are integer cents, as in the cart; the tip is a
 * real number of cents (its rounding to two decimals of a dollar is not modelled).
 */
module Checkout {
  import Strings
  import Cart

  /** The form's fields, in the order `handleSubmit` tests them. */
  datatype Field =
    | FullName | Email | Address | City | State | ZipCode | CardNumber | CardName | ExpDate | Cvv

  datatype ShippingForm = ShippingForm(
    fullName: string, email: string, address: string, city: string, state: string,
    zipCode: string, cardNumber: string, cardName: string, expDate: string, cvv: string)

  const EmptyForm := ShippingForm("", "", "", "", "", "", "", "", "", "")

  function Get(form: ShippingForm, f: Field): string {
    match f
    case FullName => form.fullName
    case Email => form.email
    case Address => form.address
    case City => form.city
    case State => form.state
    case ZipCode => form.zipCode
    case CardNumber => form.cardNumber
    case CardName => form.cardName
    case ExpDate => form.expDate
    case Cvv => form.cvv
  }

  /** `handleInputChange`: one field takes the typed value, the others keep theirs. */
  function Put(form: ShippingForm, f: Field, value: string): (r: ShippingForm)
    ensures forall g :: Get(r, g) == if g == f then value else Get(form, g)
  {
    match f
    case FullName => form.(fullName := value)
    case Email => form.(email := value)
    case Address => form.(address := value)
    case City => form.(city := value)
    case State => form.(state := value)
    case ZipCode => form.(zipCode := value)
    case CardNumber => form.(cardNumber := value)
    case CardName => form.(cardName := value)
    case ExpDate => form.(expDate := value)
    case Cvv => form.(cvv := value)
  }

  /** The validation of `handleSubmit`: some field is still empty. */
  function MissingRequiredField(form: ShippingForm): (b: bool)
    ensures b <==> exists f :: Get(form, f) == ""
  {
    assert Get(form, FullName) == form.fullName && Get(form, Cvv) == form.cvv;
    assert Get(form, Email) == form.email && Get(form, Address) == form.address;
    assert Get(form, City) == form.city && Get(form, State) == form.state;
    assert Get(form, ZipCode) == form.zipCode && Get(form, CardNumber) == form.cardNumber;
    assert Get(form, CardName) == form.cardName && Get(form, ExpDate) == form.expDate;
    form.fullName == "" || form.email == "" || form.address == "" || form.city == ""
    || form.state == "" || form.zipCode == "" || form.cardNumber == "" || form.cardName == ""
    || form.expDate == "" || form.cvv == ""
  }

  /** The four tiers the tip texts share. */
  datatype TipTier = NoTip | SmallTip | GoodTip | BigTip

  /** `getTipEmoji`. The literals are the code points the page's file holds for them. */
  function TipEmoji(percentage: int): string {
    if percentage == 0 then "\U{F8FF}\U{FC}\U{F2}\U{EA}"
    else if percentage <= 5 then "\U{F8FF}\U{FC}\U{F2}\U{EF}"
    else if percentage <= 15 then "\U{F8FF}\U{FC}\U{F2}\U{E4}"
    else "\U{F8FF}\U{FC}\U{A7}\U{A9}"
  }

  /** `getTipMessage` */
  function TipMessage(percentage: int): string {
    if percentage == 0 then "Carlos is indifferent about this."
    else if percentage <= 5 then "Carlos is slightly disappointed."
    else if percentage <= 15 then "Carlos appreciates your generosity!"
    else "Carlos will name his next weird item after you!"
  }

  /** The tier a percentage falls in: exactly 0, at most 5, at most 15, above 15. */
  function Tier(percentage: int): (t: TipTier)
    ensures t == NoTip <==> percentage == 0
    ensures t == SmallTip <==> percentage != 0 && percentage <= 5
    ensures t == GoodTip <==> 5 < percentage <= 15
    ensures t == BigTip <==> percentage > 15
  {
    if percentage == 0 then NoTip
    else if percentage <= 5 then SmallTip
    else if percentage <= 15 then GoodTip
    else BigTip
  }

  /** The emoji and the message draw the same lines: each is determined by the tier, and tells the tier apart. */
  lemma TipTextsShareTiers(p: int, q: int)
    ensures TipEmoji(p) == TipEmoji(q) <==> Tier(p) == Tier(q)
    ensures TipMessage(p) == TipMessage(q) <==> Tier(p) == Tier(q)
  {
    var e := ["\U{F8FF}\U{FC}\U{F2}\U{EA}", "\U{F8FF}\U{FC}\U{F2}\U{EF}", "\U{F8FF}\U{FC}\U{F2}\U{E4}", "\U{F8FF}\U{FC}\U{A7}\U{A9}"];
    assert e[0][3] != e[1][3] && e[0][3] != e[2][3] && e[1][3] != e[2][3] && e[0][2] != e[3][2] && e[1][2] != e[3][2] && e[2][2] != e[3][2];
    var m := ["Carlos is indifferent about this.", "Carlos is slightly disappointed.",
              "Carlos appreciates your generosity!", "Carlos will name his next weird item after you!"];
    assert m[0][10] != m[1][10] && m[0][10] != m[2][10] && m[0][10] != m[3][10];
    assert m[1][10] != m[2][10] && m[1][10] != m[3][10] && m[2][10] != m[3][10];
  }

  /** The buttons offer 0, 5, 10, 15 and 20 percent: each tier is offered, and only 10 and 15 share one. */
  lemma OfferedTips()
    ensures Tier(0) == NoTip && Tier(5) == SmallTip && Tier(10) == GoodTip && Tier(15) == GoodTip && Tier(20) == BigTip
  {
  }

  /** The shipping charge the page starts with: 5 dollars. */
  const Shipping := 500

  /** `cart.total * tipPercentage / 100` */
  function TipAmount(cartTotal: int, percentage: int): (tip: real)
    ensures 0 <= cartTotal && 0 <= percentage <= 100 ==> 0.0 <= tip <= cartTotal as real
    ensures percentage == 0 ==> tip == 0.0
  {
    (cartTotal * percentage) as real / 100.0
  }

  /** `cart.total + shipping + tipAmount` */
  function OrderTotal(cartTotal: int, shipping: int, percentage: int): (total: real)
    ensures total - (cartTotal + shipping) as real == TipAmount(cartTotal, percentage)
  {
    (cartTotal + shipping) as real + TipAmount(cartTotal, percentage)
  }

  /** A larger tip percentage never lowers the order total of a non-negative cart. */
  lemma OrderTotalMonotone(cartTotal: int, shipping: int, p: int, q: int)
    requires 0 <= cartTotal && p <= q
    ensures OrderTotal(cartTotal, shipping, p) <= OrderTotal(cartTotal, shipping, q)
  {
    assert cartTotal * p <= cartTotal * q by {
      assert cartTotal * q - cartTotal * p == cartTotal * (q - p);
    }
  }

  /** `Math.floor(100000 + Math.random() * 900000)`, given the random draw in [0, 1). */
  function OrderNumber(random: real): (n: int)
    requires 0.0 <= random < 1.0
    ensures 100000 <= n <= 999999
  {
    (100000.0 + random * 900000.0).Floor
  }

  /** `"CS" + orderNumber`: always "CS" and six digits. */
  function OrderNumberText(n: int): (text: string)
    requires 100000 <= n <= 999999
    ensures |text| == 8 && Strings.StartsWith(text, "CS")
    ensures forall i :: 2 <= i < 8 ==> Strings.IsDigit(text[i])
    ensures Strings.ParseDigits(text[2..]) == n
  {
    assert Strings.Pow10(5) == 100000 && Strings.Pow10(6) == 1000000;
    Strings.NatToStringLength(n, 6);
    Strings.ParseNatToString(n);
    var text := "CS" + Strings.NatToString(n);
    assert text[2..] == Strings.NatToString(n);
    text
  }

  /** What the page shows. */
  datatype Screen = EmptyCart | OrderComplete | CheckoutForm

  /** An empty cart shows its screen unless the order is complete; a complete order shows the confirmation. */
  function ScreenFor(itemCount: nat, isComplete: bool): (s: Screen)
    ensures s == EmptyCart <==> itemCount == 0 && !isComplete
    ensures s == OrderComplete <==> isComplete
  {
    if itemCount == 0 && !isComplete then EmptyCart
    else if isComplete then OrderComplete
    else CheckoutForm
  }

  const FillInText := "Please fill in all required fields"

  /** The page's state. */
  class CheckoutPage {
    var form: ShippingForm
    var shipping: int
    var tipPercentage: int
    var isProcessing: bool
    var isComplete: bool
    var orderNumber: string
    var error: string

    constructor()
      ensures form == EmptyForm && shipping == Shipping && tipPercentage == 0
      ensures !isProcessing && !isComplete && orderNumber == "" && error == ""
    {
      form, shipping, tipPercentage := EmptyForm, Shipping, 0;
      isProcessing, isComplete, orderNumber, error := false, false, "", "";
    }

    /** `handleTipChange` */
    method ChangeTip(percentage: int)
      modifies this
      ensures tipPercentage == percentage
      ensures form == old(form) && shipping == old(shipping) && isComplete == old(isComplete)
      ensures isProcessing == old(isProcessing) && orderNumber == old(orderNumber) && error == old(error)
    {
      tipPercentage := percentage;
    }

    /** `handleInputChange` */
    method ChangeInput(f: Field, value: string)
      modifies this
      ensures form == Put(old(form), f, value)
      ensures shipping == old(shipping) && tipPercentage == old(tipPercentage) && isComplete == old(isComplete)
      ensures isProcessing == old(isProcessing) && orderNumber == old(orderNumber) && error == old(error)
    {
      form := Put(form, f, value);
    }

    /**
     * `handleSubmit`, given the random draw: an empty field stops it with an error and
     * nothing else changes; otherwise the order is placed, its number recorded, processing
     * ends, the order is complete and the cart is emptied, so the confirmation shows.
     */
    method Submit(random: real, cart: Cart.CartProvider)
      requires 0.0 <= random < 1.0
      modifies this, cart
      ensures form == old(form) && shipping == old(shipping) && tipPercentage == old(tipPercentage)
      ensures MissingRequiredField(form) ==>
        && error == FillInText && cart.state == old(cart.state)
        && isProcessing == old(isProcessing) && isComplete == old(isComplete) && orderNumber == old(orderNumber)
      ensures !MissingRequiredField(form) ==>
        && error == "" && !isProcessing && isComplete
        && orderNumber == OrderNumberText(OrderNumber(random))
        && cart.state == Cart.Initial
        && ScreenFor(|cart.state.items|, isComplete) == OrderComplete
    {
      if MissingRequiredField(form) {
        error := FillInText;
        return;
      }
      isProcessing := true;
      error := "";
      orderNumber := OrderNumberText(OrderNumber(random));
      isProcessing := false;
      isComplete := true;
      cart.ClearCart();
    }
  }
}
