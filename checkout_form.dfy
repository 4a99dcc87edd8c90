/** The checkout form (components/CheckoutForm.tsx): the four buyer fields,
    the required-field check, the order it assembles from the cart and the
    total it was given, and the `isSubmitting` / `error` / `success` state
    around the request to the orders endpoint. */
module Checkout {
  import opened Types
  import opened JsText
  import HomePage

  datatype FormData = FormData(customerName: string, email: string, phone: string, address: string)

  /** The `name` attribute of each input. */
  datatype Field = CustomerName | Email | Phone | Address

  function GetField(form: FormData, field: Field): (value: string) {
    match field
    case CustomerName => form.customerName
    case Email => form.email
    case Phone => form.phone
    case Address => form.address
  }

  /** `{ ...formData, [name]: value }`: the named field takes the value and
      the other three keep theirs. */
  function SetField(form: FormData, field: Field, value: string): (r: FormData)
    ensures GetField(r, field) == value
    ensures forall other :: other != field ==> GetField(r, other) == GetField(form, other)
  {
    match field
    case CustomerName => form.(customerName := value)
    case Email => form.(email := value)
    case Phone => form.(phone := value)
    case Address => form.(address := value)
  }

  /** The validation in `handleSubmit`: some field is the empty string. */
  predicate HasEmptyField(form: FormData) {
    form.customerName == "" || form.email == "" || form.phone == "" || form.address == ""
  }

  lemma HasEmptyFieldMeansSomeField(form: FormData)
    ensures HasEmptyField(form) <==> exists field :: GetField(form, field) == ""
  {
    if HasEmptyField(form) {
      if form.customerName == "" { assert GetField(form, CustomerName) == ""; }
      else if form.email == "" { assert GetField(form, Email) == ""; }
      else if form.phone == "" { assert GetField(form, Phone) == ""; }
      else { assert GetField(form, Address) == ""; }
    }
  }

  const MissingFieldsError := "Please fill in all fields"
  const SubmitFailedError := "Failed to submit order. Please try again."

  /** `ORD-${Date.now()}` for the submission time in milliseconds. */
  function OrderId(timestamp: nat): (id: string)
    ensures |id| > 4 && id[..4] == "ORD-" && AllDigits(id[4..])
  {
    "ORD-" + NatToString(timestamp)
  }

  /** Submissions at different times get different order ids. */
  lemma OrderIdsDistinct(t: nat, u: nat)
    ensures OrderId(t) == OrderId(u) <==> t == u
  {
    if OrderId(t) == OrderId(u) {
      assert OrderId(t)[4..] == NatToString(t);
      assert OrderId(u)[4..] == NatToString(u);
    }
    NatToStringInjective(t, u);
  }

  /** The `OrderData` literal of `handleSubmit`; `isoDate` is
      `new Date().toISOString()` at submission. */
  function BuildOrder(form: FormData, cart: seq<CartItem>, totalPrice: int, timestamp: nat, isoDate: string)
    : (order: OrderData)
  {
    OrderData(OrderId(timestamp), isoDate, form.customerName, form.email, form.phone, form.address,
              cart, totalPrice)
  }

  /** Given the page's total, the assembled order carries the cart as its
      items and their price-times-quantity sum as its total. */
  lemma OrderMatchesCart(form: FormData, cart: seq<CartItem>, timestamp: nat, isoDate: string)
    ensures var order := BuildOrder(form, cart, HomePage.TotalPrice(cart), timestamp, isoDate);
      && order.items == cart
      && order.total == HomePage.TotalPrice(order.items)
      && order.orderId == OrderId(timestamp)
      && order.customerName == form.customerName && order.email == form.email
      && order.phone == form.phone && order.address == form.address
  {
  }

  /** The order summary's amount for one line: `$` and price times quantity
      to two decimals. */
  function LineAmount(item: CartItem): (amount: string) {
    "$" + FormatCents(LineTotal(item))
  }

  /** The order summary's footer: `$` and the total to two decimals. */
  function TotalAmount(totalPrice: int): (amount: string) {
    "$" + FormatCents(totalPrice)
  }

  /** Each shown amount reads back as the amount it shows. */
  lemma AmountsReadBack(item: CartItem, totalPrice: int)
    ensures LineAmount(item)[0] == '$' && ParseCents(LineAmount(item)[1..]) == Some(LineTotal(item))
    ensures TotalAmount(totalPrice)[0] == '$' && ParseCents(TotalAmount(totalPrice)[1..]) == Some(totalPrice)
  {
    CentsRoundTrip(LineTotal(item));
    CentsRoundTrip(totalPrice);
    assert LineAmount(item)[1..] == FormatCents(LineTotal(item));
    assert TotalAmount(totalPrice)[1..] == FormatCents(totalPrice);
  }

  /** The form component's state; `cart` and `totalPrice` are its props. */
  class CheckoutForm {
    const cart: seq<CartItem>
    const totalPrice: int
    var formData: FormData
    var isSubmitting: bool
    var error: string
    var success: bool

    constructor (cart: seq<CartItem>, totalPrice: int)
      ensures this.cart == cart && this.totalPrice == totalPrice
      ensures formData == FormData("", "", "", "")
      ensures !isSubmitting && error == "" && !success
    {
      this.cart := cart;
      this.totalPrice := totalPrice;
      formData := FormData("", "", "", "");
      isSubmitting, error, success := false, "", false;
    }

    /** `handleChange`: store what was typed into the named field. */
    method HandleChange(field: Field, value: string)
      modifies this`formData
      ensures formData == SetField(old(formData), field, value)
    {
      formData := SetField(formData, field, value);
    }

    /** `handleSubmit` up to the `fetch`: clear the error, raise
        `isSubmitting`, validate, and assemble the order to send. On a
        missing field no order is built and `isSubmitting` drops again. */
    method StartSubmit(timestamp: nat, isoDate: string) returns (order: Option<OrderData>)
      modifies this`error, this`isSubmitting
      ensures HasEmptyField(formData) ==> order == None && error == MissingFieldsError && !isSubmitting
      ensures !HasEmptyField(formData) ==>
        && order == Some(BuildOrder(formData, cart, totalPrice, timestamp, isoDate))
        && error == "" && isSubmitting
    {
      error := "";
      isSubmitting := true;
      if HasEmptyField(formData) {
        error := MissingFieldsError;
        isSubmitting := false;
        return None;
      }
      order := Some(BuildOrder(formData, cart, totalPrice, timestamp, isoDate));
    }

    /** `handleSubmit` after the `fetch`: `responseOk` is false when the
        request threw or answered a non-2xx status. Success schedules
        `onOrderComplete`; every path ends with `isSubmitting` false. */
    method FinishSubmit(responseOk: bool) returns (completeScheduled: bool)
      modifies this`error, this`isSubmitting, this`success
      ensures !isSubmitting
      ensures completeScheduled == responseOk
      ensures responseOk ==> success && error == old(error)
      ensures !responseOk ==> success == old(success) && error == SubmitFailedError
    {
      if responseOk {
        success := true;
      } else {
        error := SubmitFailedError;
      }
      isSubmitting := false;
      completeScheduled := responseOk;
    }
  }

  /** How the page mounts the form: its current cart and `getTotalPrice()`. */
  method OpenCheckoutForm(page: HomePage.Storefront) returns (form: CheckoutForm)
    ensures fresh(form)
    ensures form.cart == page.cart && form.totalPrice == HomePage.TotalPrice(page.cart)
    ensures form.formData == FormData("", "", "", "") && !form.isSubmitting
  {
    var total := page.GetTotalPrice();
    form := new CheckoutForm(page.cart, total);
  }
}
