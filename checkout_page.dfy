/** The checkout page: the delivery-form validator, the order it submits, and
    the rule that the cart is emptied only once the order has been placed.

    Placing the order is a call to the remote backend; here it is the parameter
    `placeOrder`, whose answer is either an order id or a failure. */
module Checkout {
  import opened Wrappers
  import opened JsString
  import opened CartStore

  /** The delivery form, sent as the order's customer details. */
  datatype CustomerDetails = CustomerDetails(
    name: string,
    phone: string,
    address: string,
    city: string,
    state: string,
    pinCode: string)

  datatype PaymentMethod = Upi(upiId: string) | CashOnDelivery

  /** One entry of the order: a product id and its quantity, both bigints. */
  datatype OrderLine = OrderLine(productId: int, quantity: int)

  datatype OrderRequest = OrderRequest(
    cartItems: seq<OrderLine>,
    customerDetails: CustomerDetails,
    paymentMethod: PaymentMethod)

  /** The settled promise of the place-order mutation. */
  datatype PlaceOutcome = Placed(orderId: int) | PlaceFailed

  const NameRequired := "Name is required"
  const PhoneRequired := "Phone number is required"
  const PhoneDigits := "Phone must be 10 digits"
  const AddressRequired := "Address is required"
  const CityRequired := "City is required"
  const StateRequired := "State is required"
  const PinRequired := "PIN code is required"
  const PinDigits := "PIN code must be 6 digits"

  /** The keys under which the form reports errors: the form's property names
      `name`, `phone`, `address`, `city`, `state` and `pinCode`. */
  datatype Field = Name | Phone | Address | City | State | PinCode

  const AllFields: set<Field> := {Name, Phone, Address, City, State, PinCode}

  /** `!value.trim()`: nothing but white space (see `BlankIsEmptyTrim`). */
  predicate Blank(s: string)
  {
    AllWhiteSpace(s)
  }

  /** `Blank` is exactly "trims to the empty string". */
  lemma BlankIsEmptyTrim(s: string)
    ensures Blank(s) <==> Trim(s) == []
  {
    TrimEmptyIff(s);
  }

  /** Whether the form field under `key` breaks its rule: the text fields must
      not be blank, the phone must be ten digits and the PIN code six, both
      after trimming. */
  predicate Fails(form: CustomerDetails, key: Field)
  {
    match key
    case Name => Blank(form.name)
    case Phone => !IsDigitsOfLength(Trim(form.phone), 10)
    case Address => Blank(form.address)
    case City => Blank(form.city)
    case State => Blank(form.state)
    case PinCode => !IsDigitsOfLength(Trim(form.pinCode), 6)
  }

  /** The message a failing field ends up with. A blank phone or PIN code fails
      both of its checks, and the digit check, which comes second, wins. */
  function FinalMessage(key: Field): string
  {
    match key
    case Name => NameRequired
    case Phone => PhoneDigits
    case Address => AddressRequired
    case City => CityRequired
    case State => StateRequired
    case PinCode => PinDigits
  }

  /** The error map the form should show: one entry per failing field. */
  function Errors(form: CustomerDetails): map<Field, string>
  {
    map k | k in AllFields && Fails(form, k) :: FinalMessage(k)
  }

  /** Every rule holds. */
  predicate FormValid(form: CustomerDetails)
  {
    !Blank(form.name) && IsDigitsOfLength(Trim(form.phone), 10)
    && !Blank(form.address) && !Blank(form.city) && !Blank(form.state)
    && IsDigitsOfLength(Trim(form.pinCode), 6)
  }

  /** The writes of `validateForm`, given the outcome of each test: in source
      order, each failing test writes its message under its key, so the digit
      test of the phone and of the PIN code overwrites their "required" message. */
  method WriteErrors(nameBlank: bool, phoneBlank: bool, phoneNotTen: bool, addressBlank: bool,
                     cityBlank: bool, stateBlank: bool, pinBlank: bool, pinNotSix: bool)
    returns (newErrors: map<Field, string>)
    ensures (Name in newErrors <==> nameBlank) && (Address in newErrors <==> addressBlank)
    ensures (City in newErrors <==> cityBlank) && (State in newErrors <==> stateBlank)
    ensures Phone in newErrors <==> phoneBlank || phoneNotTen
    ensures PinCode in newErrors <==> pinBlank || pinNotSix
    ensures Phone in newErrors ==> newErrors[Phone] == if phoneNotTen then PhoneDigits else PhoneRequired
    ensures PinCode in newErrors ==> newErrors[PinCode] == if pinNotSix then PinDigits else PinRequired
    ensures forall k :: k in newErrors && k != Phone && k != PinCode ==> newErrors[k] == FinalMessage(k)
  {
    newErrors := map[];
    if nameBlank { newErrors := newErrors[Name := NameRequired]; }
    if phoneBlank { newErrors := newErrors[Phone := PhoneRequired]; }
    if phoneNotTen { newErrors := newErrors[Phone := PhoneDigits]; }
    if addressBlank { newErrors := newErrors[Address := AddressRequired]; }
    if cityBlank { newErrors := newErrors[City := CityRequired]; }
    if stateBlank { newErrors := newErrors[State := StateRequired]; }
    if pinBlank { newErrors := newErrors[PinCode := PinRequired]; }
    if pinNotSix { newErrors := newErrors[PinCode := PinDigits]; }
  }

  /** The body of `validateForm` up to `setErrors`: each field is trimmed and
      tested, and the failures are written into `newErrors`. */
  method BuildErrors(form: CustomerDetails) returns (newErrors: map<Field, string>)
    ensures forall k :: k in newErrors <==> Fails(form, k)
    ensures forall k :: k in newErrors ==> newErrors[k] == FinalMessage(k)
  {
    var phone, pinCode := Trim(form.phone), Trim(form.pinCode);
    newErrors := WriteErrors(
      Blank(form.name), Blank(form.phone), !IsDigitsOfLength(phone, 10), Blank(form.address),
      Blank(form.city), Blank(form.state), Blank(form.pinCode), !IsDigitsOfLength(pinCode, 6));
    BlankFailsDigits(form.phone, 10);
    BlankFailsDigits(form.pinCode, 6);
    forall k ensures k in newErrors <==> Fails(form, k) {
      FieldListed(k);
    }
  }

  /** A map with exactly the failing fields as keys, each with its final
      message, is the error map of the form. */
  lemma ErrorsUnique(form: CustomerDetails, m: map<Field, string>)
    requires forall k :: k in m <==> Fails(form, k)
    requires forall k :: k in m ==> m[k] == FinalMessage(k)
    ensures m == Errors(form)
  {
    forall k ensures k in m <==> k in Errors(form) {
      FieldListed(k);
    }
  }

  lemma FieldListed(k: Field)
    ensures k in AllFields
  {
    match k
    case Name =>
    case Phone =>
    case Address =>
    case City =>
    case State =>
    case PinCode =>
  }

  /** A blank value has no digits at all. */
  lemma BlankFailsDigits(s: string, n: nat)
    requires n > 0
    ensures Blank(s) ==> !IsDigitsOfLength(Trim(s), n)
  {
    BlankIsEmptyTrim(s);
  }

  /** The error map holds exactly the failing fields, under their own keys. */
  lemma ErrorKeys(form: CustomerDetails)
    ensures Name in Errors(form) <==> Blank(form.name)
    ensures Phone in Errors(form) <==> !IsDigitsOfLength(Trim(form.phone), 10)
    ensures Address in Errors(form) <==> Blank(form.address)
    ensures City in Errors(form) <==> Blank(form.city)
    ensures State in Errors(form) <==> Blank(form.state)
    ensures PinCode in Errors(form) <==> !IsDigitsOfLength(Trim(form.pinCode), 6)
  {
  }

  /** The form is valid exactly when its error map is empty. */
  lemma ValidIffNoErrors(form: CustomerDetails)
    ensures Errors(form) == map[] <==> FormValid(form)
  {
    if Errors(form) == map[] {
      ErrorKeys(form);
      assert Name !in Errors(form) && Phone !in Errors(form) && Address !in Errors(form);
      assert City !in Errors(form) && State !in Errors(form) && PinCode !in Errors(form);
    } else {
      var k :| k in Errors(form);
      assert Fails(form, k);
    }
  }

  /** A name, address, city or state of white space alone is reported as
      required, under its own key. */
  lemma WhiteSpaceIsRequired(form: CustomerDetails)
    ensures AllWhiteSpace(form.name) ==> Name in Errors(form) && Errors(form)[Name] == NameRequired
    ensures AllWhiteSpace(form.address) ==> Address in Errors(form) && Errors(form)[Address] == AddressRequired
    ensures AllWhiteSpace(form.city) ==> City in Errors(form) && Errors(form)[City] == CityRequired
    ensures AllWhiteSpace(form.state) ==> State in Errors(form) && Errors(form)[State] == StateRequired
  {
    TrimEmptyIff(form.name);
    TrimEmptyIff(form.address);
    TrimEmptyIff(form.city);
    TrimEmptyIff(form.state);
  }

  /** A blank phone or PIN code shows the digit message: the "required" message
      written first is always overwritten and never shown. */
  lemma BlankDigitFieldsShowDigitMessage(form: CustomerDetails)
    ensures Blank(form.phone) ==> Phone in Errors(form) && Errors(form)[Phone] == PhoneDigits
    ensures Blank(form.pinCode) ==> PinCode in Errors(form) && Errors(form)[PinCode] == PinDigits
    ensures forall k :: k in Errors(form) ==> Errors(form)[k] != PhoneRequired && Errors(form)[k] != PinRequired
  {
    BlankFailsDigits(form.phone, 10);
    BlankFailsDigits(form.pinCode, 6);
  }

  /** White space around the digits does not matter: a phone number of ten
      digits with blanks on either side passes, and so does such a PIN code. */
  lemma PaddedDigitsPass(form: CustomerDetails, before: string, digits: string, after: string)
    requires AllWhiteSpace(before) && AllWhiteSpace(after)
    requires forall i :: 0 <= i < |digits| ==> IsAsciiDigit(digits[i])
    ensures |digits| == 10 && form.phone == before + digits + after ==> Phone !in Errors(form)
    ensures |digits| == 6 && form.pinCode == before + digits + after ==> PinCode !in Errors(form)
  {
    if digits != [] {
      TrimPadded(before, digits, after);
    }
  }

  /** `items.map(...)` of `handleSubmit`: the product id and quantity of each line. */
  function OrderLines(items: seq<CartItem>): (r: seq<OrderLine>)
    ensures |r| == |items|
    ensures forall i :: 0 <= i < |items| ==>
      r[i].productId == items[i].product.productId && r[i].quantity == items[i].quantity
  {
    if items == [] then [] else [OrderLine(items[0].product.productId, items[0].quantity)] + OrderLines(items[1..])
  }

  /** A cart with unique product ids gives an order with unique product ids. */
  lemma OrderLinesUnique(items: seq<CartItem>)
    requires UniqueIds(items)
    ensures forall i, j :: 0 <= i < j < |items| ==> OrderLines(items)[i].productId != OrderLines(items)[j].productId
  {
  }

  /** The page's own state: the form, the chosen payment method and the error
      map on display. */
  class CheckoutPage {
    var formData: CustomerDetails
    var paymentMethod: PaymentMethod
    var errors: map<Field, string>

    /** An empty form, cash on delivery, no errors. */
    constructor ()
      ensures formData == CustomerDetails("", "", "", "", "", "")
      ensures paymentMethod == CashOnDelivery
      ensures errors == map[]
    {
      formData := CustomerDetails("", "", "", "", "", "");
      paymentMethod := CashOnDelivery;
      errors := map[];
    }

    /** `validateForm`: build the error map, show it, and report whether it is empty. */
    method ValidateForm() returns (ok: bool)
      modifies this`errors
      ensures errors == Errors(formData)
      ensures ok <==> FormValid(formData)
    {
      var newErrors := BuildErrors(formData);
      ErrorsUnique(formData, newErrors);
      errors := newErrors;
      ok := |newErrors| == 0;
      ValidIffNoErrors(formData);
    }

    /** `handleSubmit`: validate; when valid, send the cart's lines with the form
        and the payment method; clear the cart only when the order is placed. */
    method HandleSubmit(cart: CartProvider, placeOrder: OrderRequest -> PlaceOutcome)
      returns (request: Option<OrderRequest>, outcome: Option<PlaceOutcome>)
      modifies this`errors, cart
      ensures errors == Errors(formData)
      ensures request.Some? <==> FormValid(formData)
      ensures request.Some? ==>
        request.value == OrderRequest(OrderLines(old(cart.items)), formData, paymentMethod)
        && outcome == Some(placeOrder(request.value))
      ensures request.None? ==> outcome.None?
      ensures outcome.Some? && outcome.value.Placed? ==> cart.items == [] && cart.stored == Records([])
      ensures !(outcome.Some? && outcome.value.Placed?) ==> unchanged(cart)
    {
      var ok := ValidateForm();
      if !ok {
        return None, None;
      }
      var cartItems := OrderLines(cart.items);
      var req := OrderRequest(cartItems, formData, paymentMethod);
      var result := placeOrder(req);
      if result.Placed? {
        cart.ClearCart();
      }
      return Some(req), Some(result);
    }
  }
}
