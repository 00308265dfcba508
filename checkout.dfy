/**
 * The checkout page (checkout.html): delivery and payment details, the
 * voucher, the price breakdown, and placing the order — which pushes the
 * browser cart to the server, resolves a server address, asks the server
 * for an order and always records the order in the browser.
 */
module Checkout {
  import opened Wrappers
  import opened Strings
  import opened Catalog
  import opened CartLines
  import opened ApiService
  import opened CartSync

  // ---------------------------------------------------------------------
  // Prices

  /** Tax is 10% of the subtotal after the voucher discount; the delivery price is not taxed. */
  function CheckoutTax(subtotal: real, discount: real): (r: real)
    ensures r * 10.0 == subtotal - discount
    ensures 0.0 <= discount <= subtotal ==> 0.0 <= r <= subtotal - discount
  {
    (subtotal - discount) * 0.1
  }

  /** Subtotal plus delivery, less the discount, plus tax. */
  function CheckoutTotal(subtotal: real, delivery: real, discount: real): (r: real)
    ensures r == (subtotal - discount) * 1.1 + delivery
    ensures 0.0 <= discount <= subtotal ==> r >= delivery
  {
    subtotal + delivery - discount + CheckoutTax(subtotal, discount)
  }

  /** Changing the delivery option moves the total by exactly the change in delivery price. */
  lemma DeliveryOnlyShiftsTotal(subtotal: real, d1: real, d2: real, discount: real)
    ensures CheckoutTotal(subtotal, d1, discount) - CheckoutTotal(subtotal, d2, discount) == d1 - d2
  {
  }

  /** The delivery options of the page, as (value, price). */
  const DeliveryOptions: seq<(string, real)> := [("standard", 0.0), ("express", 9.99), ("overnight", 19.99)]

  /** The price of the option with that value, or 0 when no option has it. */
  function DeliveryPrice(value: string): (r: real)
    ensures r >= 0.0
    ensures r != 0.0 ==> exists k :: 0 <= k < |DeliveryOptions| && DeliveryOptions[k] == (value, r)
  {
    PriceIn(DeliveryOptions, value)
  }

  function PriceIn(options: seq<(string, real)>, value: string): (r: real)
    requires forall k :: 0 <= k < |options| ==> options[k].1 >= 0.0
    ensures r >= 0.0
    ensures r != 0.0 ==> exists k :: 0 <= k < |options| && options[k] == (value, r)
  {
    if options == [] then 0.0
    else if options[0].0 == value then options[0].1
    else
      var r := PriceIn(options[1..], value);
      assert r != 0.0 ==> exists k :: 0 <= k < |options[1..]| && options[1..][k] == (value, r);
      r
  }

  lemma DeliveryPrices()
    ensures DeliveryPrice("standard") == 0.0
    ensures DeliveryPrice("express") == 9.99
    ensures DeliveryPrice("overnight") == 19.99
  {
  }

  /** A value that names no option costs nothing. */
  lemma UnknownDeliveryIsFree(value: string)
    requires value != "standard" && value != "express" && value != "overnight"
    ensures DeliveryPrice(value) == 0.0
  {
  }

  // ---------------------------------------------------------------------
  // Vouchers

  datatype Voucher = Percent(rate: real) | Fixed(amount: real)

  /** The voucher codes the page accepts. */
  function LookupVoucher(code: string): Option<Voucher>
  {
    if code == "SAVE10" then Some(Percent(10.0))
    else if code == "SAVE20" then Some(Percent(20.0))
    else if code == "FLAT50" then Some(Fixed(50.0))
    else if code == "WELCOME15" then Some(Percent(15.0))
    else None
  }

  /** A percent voucher takes that share of the subtotal; a fixed one its amount, but never more than the subtotal. */
  function VoucherDiscount(v: Voucher, subtotal: real): (r: real)
    ensures v.Percent? ==> r == subtotal * v.rate / 100.0
    ensures v.Fixed? ==> r <= subtotal && r <= v.amount && (r == subtotal || r == v.amount)
  {
    match v
    case Percent(d) => subtotal * d / 100.0
    case Fixed(d) => if d < subtotal then d else subtotal
  }

  /** Every accepted voucher discounts between nothing and the whole subtotal. */
  lemma VoucherDiscountBounded(code: string, subtotal: real)
    requires LookupVoucher(code).Some? && subtotal >= 0.0
    ensures 0.0 <= VoucherDiscount(LookupVoucher(code).value, subtotal) <= subtotal
  {
  }

  /** The code the page looks up: the entered code upper-cased, then trimmed. */
  function NormalizeCode(entered: string): string
  {
    Trim(ToUpper(entered))
  }

  datatype VoucherState = VoucherState(code: string, error: string, applied: bool, discount: real)

  const NoVoucher := VoucherState("", "", false, 0.0)

  // ---------------------------------------------------------------------
  // Card expiry

  /** The decimal digits of s, in order. */
  function Digits(s: string): (r: string)
    ensures |r| <= |s|
    ensures AllDigits(r)
  {
    if s == [] then [] else (if IsDigit(s[0]) then [s[0]] else []) + Digits(s[1..])
  }

  lemma {:induction false} DigitsAppend(a: string, b: string)
    ensures Digits(a + b) == Digits(a) + Digits(b)
    decreases |a|
  {
    if a != [] {
      assert (a + b)[1..] == a[1..] + b;
      DigitsAppend(a[1..], b);
    } else {
      assert a + b == b;
    }
  }

  lemma {:induction false} DigitsOfDigits(s: string)
    requires AllDigits(s)
    ensures Digits(s) == s
    decreases |s|
  {
    if s != [] {
      DigitsOfDigits(s[1..]);
    }
  }

  /** The expiry field as typed: digits only, with a '/' after the month once two digits are in, and at most four digits. */
  function FormatExpiry(input: string): (r: string)
    ensures |r| <= 5
    ensures forall i :: 0 <= i < |r| && i != 2 ==> IsDigit(r[i])
    ensures |Digits(input)| >= 2 ==> |r| >= 3 && r[2] == '/'
    ensures |Digits(input)| < 2 ==> r == Digits(input)
  {
    var d := Digits(input);
    if |d| >= 2 then d[..2] + "/" + d[2..if |d| < 4 then |d| else 4] else d
  }

  /** The slash the formatter inserts is dropped again when the digits are extracted. */
  lemma DigitsAroundSlash(month: string, year: string)
    requires Digits(month) == month && Digits(year) == year
    ensures Digits(month + "/" + year) == month + year
  {
    assert Digits("/") == [];
    DigitsAppend(month + "/", year);
    DigitsAppend(month, "/");
  }

  lemma AllDigitsSlice(s: string, i: nat, j: nat)
    requires AllDigits(s) && i <= j <= |s|
    ensures AllDigits(s[i..j])
  {
    assert forall k :: 0 <= k < j - i ==> s[i..j][k] == s[i + k];
  }

  /** The digits kept are the first (at most four) digits typed. */
  lemma FormatExpiryKeepsDigits(input: string)
    ensures var d := Digits(input);
      Digits(FormatExpiry(input)) == d[..if |d| < 4 then |d| else 4]
  {
    var d := Digits(input);
    if |d| >= 2 {
      var m := if |d| < 4 then |d| else 4;
      assert FormatExpiry(input) == d[..2] + "/" + d[2..m];
      AllDigitsSlice(d, 0, 2);
      AllDigitsSlice(d, 2, m);
      DigitsOfDigits(d[..2]);
      DigitsOfDigits(d[2..m]);
      DigitsAroundSlash(d[..2], d[2..m]);
      assert d[..2] + d[2..m] == d[..m];
    } else {
      DigitsOfDigits(d);
    }
  }

  /** Formatting an already formatted value changes nothing, so reformatting on every keystroke is stable. */
  lemma FormatExpiryIdempotent(input: string)
    ensures FormatExpiry(FormatExpiry(input)) == FormatExpiry(input)
  {
    FormatExpiryKeepsDigits(input);
  }

  // ---------------------------------------------------------------------
  // Form and address

  /** The delivery address as the page holds it; an absent field is "". */
  datatype DeliveryAddress = DeliveryAddress(
    fullName: string, phone: string, address: string, city: string,
    state: string, zipCode: string, country: string, email: string)

  const EmptyAddress := DeliveryAddress("", "", "", "", "", "", "", "")

  datatype PaymentDetails = PaymentDetails(cardNumber: string, expiryDate: string, cvv: string, cardName: string)

  const EmptyPayment := PaymentDetails("", "", "", "")

  predicate AddressComplete(a: DeliveryAddress)
  {
    a.fullName != "" && a.phone != "" && a.address != "" && a.city != "" && a.state != "" && a.zipCode != ""
  }

  predicate CardComplete(p: PaymentDetails)
  {
    p.cardNumber != "" && p.expiryDate != "" && p.cvv != "" && p.cardName != ""
  }

  /** The gate on placing an order: the six address fields, the card fields when paying by card, and a non-empty cart. */
  predicate FormValid(a: DeliveryAddress, payment: string, card: PaymentDetails, lines: seq<CartLine>)
  {
    AddressComplete(a) && (payment == "credit-card" ==> CardComplete(card)) && |lines| > 0
  }

  /** The card fields matter only when paying by card. */
  lemma CardIrrelevantOffCard(a: DeliveryAddress, payment: string, c1: PaymentDetails, c2: PaymentDetails, lines: seq<CartLine>)
    requires payment != "credit-card"
    ensures FormValid(a, payment, c1, lines) <==> FormValid(a, payment, c2, lines)
  {
  }

  /** An address the server already holds, as listed by it. */
  datatype RemoteAddress = RemoteAddress(id: int, address: string, city: string, zipCode: string)

  /** The first listed address with the same street, city and zip code. */
  function FindAddress(listed: seq<RemoteAddress>, a: DeliveryAddress): (r: Option<nat>)
    ensures r.Some? ==>
      r.value < |listed| && listed[r.value].address == a.address && listed[r.value].city == a.city && listed[r.value].zipCode == a.zipCode
    ensures r.Some? ==> forall j :: 0 <= j < r.value ==>
      !(listed[j].address == a.address && listed[j].city == a.city && listed[j].zipCode == a.zipCode)
    ensures r.None? ==> forall j :: 0 <= j < |listed| ==>
      !(listed[j].address == a.address && listed[j].city == a.city && listed[j].zipCode == a.zipCode)
  {
    if listed == [] then None
    else if listed[0].address == a.address && listed[0].city == a.city && listed[0].zipCode == a.zipCode then Some(0)
    else
      match FindAddress(listed[1..], a)
      case None => None
      case Some(k) => Some(k + 1)
  }

  /** The body sent to create an address; the country defaults to Kuwait. */
  datatype AddressRequest = AddressRequest(
    fullName: string, phone: string, address: string, city: string, state: string,
    zipCode: string, country: string, addressType: string, isDefault: bool)

  function NewAddressRequest(a: DeliveryAddress): (r: AddressRequest)
    ensures r.country == (if a.country != "" then a.country else "Kuwait")
    ensures r.address == a.address && r.city == a.city && r.zipCode == a.zipCode
    ensures r.addressType == "home" && !r.isDefault
  {
    AddressRequest(a.fullName, a.phone, a.address, a.city, a.state, a.zipCode,
                   if a.country != "" then a.country else "Kuwait", "home", false)
  }

  /**
   * The address id the order is sent with: a listed match, else the id the
   * server gives a newly created address (None when creating it fails).
   */
  function ResolveAddressId(a: DeliveryAddress, listed: seq<RemoteAddress>, created: Option<int>): (r: Option<int>)
    ensures FindAddress(listed, a).Some? ==> r == Some(listed[FindAddress(listed, a).value].id)
    ensures FindAddress(listed, a).None? ==> r == created
  {
    match FindAddress(listed, a)
    case Some(k) => Some(listed[k].id)
    case None => created
  }

  /** A listed address that matches is reused, so no second copy is created. */
  lemma MatchingAddressReused(a: DeliveryAddress, listed: seq<RemoteAddress>, k: nat, created: Option<int>)
    requires k < |listed| && listed[k].address == a.address && listed[k].city == a.city && listed[k].zipCode == a.zipCode
    ensures ResolveAddressId(a, listed, created).Some?
    ensures exists j :: 0 <= j <= k && ResolveAddressId(a, listed, created) == Some(listed[j].id)
  {
    var r := FindAddress(listed, a);
    assert r.Some?;
    assert r.value <= k;
  }

  // ---------------------------------------------------------------------
  // Orders

  /** What createOrder is sent. */
  datatype OrderRequest = OrderRequest(deliveryAddressId: Option<int>, shippingCost: real, discount: real, paymentMethod: string, notes: string)

  /** The server's answer to createOrder; "" stands for an absent field. */
  datatype BackendOrder = BackendOrder(orderNumber: string, status: string)

  /** The order as recorded in the browser under 'shopvue_orders'. */
  datatype OrderRecord = OrderRecord(
    id: string, orderNumber: string, userEmail: string, items: seq<CartLine>,
    deliveryAddress: DeliveryAddress, deliveryOption: string, deliveryPrice: real,
    paymentMethod: string, voucherCode: Option<string>, voucherDiscount: real,
    subtotal: real, tax: real, total: real, status: string, timestamp: string)

  /** The server's order number when it gave one, else 'ORD-' and the upper-cased clock stamp. */
  function OrderId(backend: Option<BackendOrder>, stamp: string): (r: string)
    ensures r != ""
    ensures backend.Some? && backend.value.orderNumber != "" ==> r == backend.value.orderNumber
    ensures !(backend.Some? && backend.value.orderNumber != "") ==> |r| >= 4 && r[..4] == "ORD-" && r[4..] == ToUpper(stamp)
  {
    if backend.Some? && backend.value.orderNumber != "" then backend.value.orderNumber else "ORD-" + ToUpper(stamp)
  }

  /** The account e-mail, else the delivery e-mail, else 'guest': never empty. */
  function OrderEmail(account: string, delivery: string): (r: string)
    ensures r != ""
    ensures r == account || r == delivery || r == "guest"
    ensures account != "" ==> r == account
  {
    if account != "" then account else if delivery != "" then delivery else "guest"
  }

  /** The order's status: the server's, else 'pending'. */
  function OrderStatus(backend: Option<BackendOrder>): (r: string)
    ensures r != ""
    ensures backend.None? ==> r == "pending"
  {
    if backend.Some? && backend.value.status != "" then backend.value.status else "pending"
  }

  /** A cart line for each entry of the server cart (the fallback load). */
  function LinesFromServer(snap: seq<RemoteCartItem>): (r: seq<CartLine>)
    ensures |r| == |snap|
    ensures forall i :: 0 <= i < |snap| ==>
      r[i] == CartLine(snap[i].product.id, snap[i].product.name, snap[i].product.price, snap[i].product.image, snap[i].quantity)
  {
    seq(|snap|, i requires 0 <= i < |snap| =>
      CartLine(snap[i].product.id, snap[i].product.name, snap[i].product.price, snap[i].product.image, snap[i].quantity))
  }

  /** A browser cart loaded from a faithful listing of the server cart mirrors it. */
  lemma LoadedCartMirrorsServer(snap: seq<RemoteCartItem>, remote: RemoteCart)
    requires Lists(snap, remote)
    ensures Mirrors(remote, LinesFromServer(snap))
  {
    var lines := LinesFromServer(snap);
    forall p | p in remote ensures p in Ids(lines) {
      var i :| 0 <= i < |snap| && SnapIds(snap)[i] == p;
      assert Ids(lines)[i] == p;
    }
    forall p | p in Ids(lines) ensures p in remote {
      var i :| 0 <= i < |lines| && Ids(lines)[i] == p;
      assert snap[i].product.id == p;
    }
  }

  // ---------------------------------------------------------------------
  // The page

  class CheckoutPage {
    var cartItems: seq<CartLine>
    var cartCount: int
    var isLoggedIn: bool
    /** Whether storage holds 'shopvue_access_token'. */
    var hasToken: bool
    /** The e-mail of the signed-in user's record; "" when absent. */
    var accountEmail: string
    var deliveryAddress: DeliveryAddress
    var selectedDelivery: string
    var selectedDeliveryPrice: real
    var selectedPayment: string
    var paymentDetails: PaymentDetails
    var voucher: VoucherState
    /** What storage holds under 'shopvue_cart'; None when the key is absent. */
    var storedCart: Option<seq<CartLine>>
    /** What storage holds under 'shopvue_delivery_address'. */
    var storedAddress: Option<DeliveryAddress>
    /** What storage holds under 'shopvue_orders'; an absent key reads as []. */
    var orders: seq<OrderRecord>
    /** False when 'shopvue_orders' holds text that does not parse. */
    var ordersReadable: bool
    /** The signed-in shopper's cart on the server, which the page changes through cart calls. */
    var serverCart: RemoteCart

    /** The page's initial data, with the sign-in state and storage it finds. */
    constructor (loggedIn: bool, token: bool, email: string, saved: Option<seq<CartLine>>,
                 savedAddress: Option<DeliveryAddress>, savedOrders: seq<OrderRecord>, readable: bool,
                 server: RemoteCart)
      ensures cartItems == [] && cartCount == 0
      ensures isLoggedIn == loggedIn && hasToken == token && accountEmail == email
      ensures deliveryAddress == EmptyAddress && paymentDetails == EmptyPayment
      ensures selectedDelivery == "standard" && selectedDeliveryPrice == 0.0 && selectedPayment == "credit-card"
      ensures voucher == NoVoucher
      ensures storedCart == saved && storedAddress == savedAddress && orders == savedOrders && serverCart == server
      ensures ordersReadable == readable
    {
      cartItems := [];
      cartCount := 0;
      isLoggedIn := loggedIn;
      hasToken := token;
      accountEmail := email;
      deliveryAddress := EmptyAddress;
      selectedDelivery := "standard";
      selectedDeliveryPrice := 0.0;
      selectedPayment := "credit-card";
      paymentDetails := EmptyPayment;
      voucher := NoVoucher;
      storedCart := saved;
      storedAddress := savedAddress;
      orders := savedOrders;
      ordersReadable := readable;
      serverCart := server;
    }

    function PageSubtotal(): real
      reads this
    {
      Subtotal(cartItems)
    }

    function PageTax(): real
      reads this
    {
      CheckoutTax(Subtotal(cartItems), voucher.discount)
    }

    function PageTotal(): real
      reads this
    {
      CheckoutTotal(Subtotal(cartItems), selectedDeliveryPrice, voucher.discount)
    }

    predicate IsFormValid()
      reads this
    {
      FormValid(deliveryAddress, selectedPayment, paymentDetails, cartItems)
    }

    /** The price shown follows the chosen option. */
    method UpdateDeliveryTimeline()
      modifies this`selectedDeliveryPrice
      ensures selectedDeliveryPrice == DeliveryPrice(selectedDelivery)
    {
      selectedDeliveryPrice := DeliveryPrice(selectedDelivery);
    }

    /** Reformats what was typed into the expiry field. */
    method FormatExpiryDate(typed: string)
      modifies this`paymentDetails
      ensures paymentDetails == old(paymentDetails).(expiryDate := FormatExpiry(typed))
    {
      paymentDetails := paymentDetails.(expiryDate := FormatExpiry(typed));
    }

    /**
     * Applies the entered code. An empty code or an unknown normalised code
     * sets an error and leaves the applied flag and the discount as they
     * were; a known one stores its discount on the current subtotal. The
     * entered code itself is kept as typed.
     */
    method ApplyVoucher()
      modifies this`voucher
      ensures voucher.code == old(voucher.code)
      ensures old(voucher.code) == "" ==>
        voucher == old(voucher).(error := "Please enter a voucher code")
      ensures old(voucher.code) != "" && LookupVoucher(NormalizeCode(old(voucher.code))).None? ==>
        voucher == old(voucher).(error := "Invalid voucher code")
      ensures old(voucher.code) != "" && LookupVoucher(NormalizeCode(old(voucher.code))).Some? ==>
        voucher.applied && voucher.error == ""
        && voucher.discount == VoucherDiscount(LookupVoucher(NormalizeCode(old(voucher.code))).value, Subtotal(cartItems))
      ensures Subtotal(cartItems) >= 0.0 && voucher.applied && !old(voucher.applied) ==> 0.0 <= voucher.discount <= Subtotal(cartItems)
    {
      voucher := voucher.(error := "");
      if voucher.code == "" {
        voucher := voucher.(error := "Please enter a voucher code");
        return;
      }
      var code := NormalizeCode(voucher.code);
      match LookupVoucher(code) {
        case None =>
          voucher := voucher.(error := "Invalid voucher code");
        case Some(v) =>
          if Subtotal(cartItems) >= 0.0 {
            VoucherDiscountBounded(code, Subtotal(cartItems));
          }
          voucher := voucher.(discount := VoucherDiscount(v, Subtotal(cartItems)), applied := true, error := "");
      }
    }

    /** Drops the voucher: code, flag, discount and error all back to their initial values. */
    method RemoveVoucher()
      modifies this`voucher
      ensures voucher == NoVoucher
    {
      voucher := NoVoucher;
    }

    /** Writes the delivery address to storage. */
    method SaveAddress()
      modifies this`storedAddress
      ensures storedAddress == Some(deliveryAddress)
    {
      storedAddress := Some(deliveryAddress);
    }

    /**
     * On mount: loads the saved cart and, for a signed-in shopper with a
     * token and a non-empty cart, syncs it to the server (any error there
     * is ignored). A signed-in shopper with a token and still no lines
     * gets the server cart instead, when it is non-empty. fetched is the
     * answer to the one cart fetch either path makes.
     */
    method LoadCartFromStorage(fetched: Option<seq<RemoteCartItem>>, outcomes: seq<CallOutcome>) returns (sync: Option<SyncState>)
      modifies this`cartItems, this`cartCount, this`storedCart, this`serverCart
      ensures var saved := old(storedCart);
        sync == (if saved.Some? && isLoggedIn && hasToken && saved.value != []
                 then Some(Sync(OnLoad, saved.value, fetched, old(serverCart), outcomes)) else None)
      ensures serverCart == (if sync.Some? then sync.value.remote else old(serverCart))
      ensures var loaded := if old(storedCart).Some? then old(storedCart).value else old(cartItems);
        if isLoggedIn && hasToken && loaded == [] && fetched.Some? && fetched.value != [] then
          cartItems == LinesFromServer(fetched.value) && storedCart == Some(cartItems) && cartCount == Count(cartItems)
        else
          cartItems == loaded && storedCart == old(storedCart)
          && cartCount == (if old(storedCart).Some? then Count(loaded) else old(cartCount))
    {
      sync := None;
      if storedCart.Some? {
        cartItems := storedCart.value;
        cartCount := Count(cartItems);
        if isLoggedIn && hasToken && |cartItems| > 0 {
          var st := RunSync(OnLoad, cartItems, fetched, serverCart, outcomes);
          serverCart := st.remote;
          sync := Some(st);
        }
      }
      if isLoggedIn && hasToken && |cartItems| == 0 {
        match fetched {
          case Some(snap) =>
            if |snap| > 0 {
              cartItems := LinesFromServer(snap);
              cartCount := Count(cartItems);
              storedCart := Some(cartItems);
            }
          case None =>
        }
      }
    }

    /** The order record the page writes, given the server's answer, the clock stamp and the time. */
    function PendingOrder(backend: Option<BackendOrder>, stamp: string, time: string): (r: OrderRecord)
      reads this
      ensures r.items == cartItems && r.deliveryAddress == deliveryAddress
      ensures r.id == r.orderNumber == OrderId(backend, stamp)
      ensures r.subtotal == Subtotal(cartItems) && r.tax == CheckoutTax(r.subtotal, voucher.discount)
      ensures r.total == CheckoutTotal(r.subtotal, selectedDeliveryPrice, voucher.discount)
      ensures r.voucherCode.Some? <==> voucher.applied
    {
      var id := OrderId(backend, stamp);
      OrderRecord(
        id, if backend.Some? && backend.value.orderNumber != "" then backend.value.orderNumber else id,
        OrderEmail(accountEmail, deliveryAddress.email), cartItems, deliveryAddress,
        selectedDelivery, selectedDeliveryPrice, selectedPayment,
        if voucher.applied then Some(voucher.code) else None, voucher.discount,
        PageSubtotal(), PageTax(), PageTotal(), OrderStatus(backend), time)
    }

    /** The createOrder body for this page state and address id. */
    function OrderRequestFor(addressId: Option<int>): (r: OrderRequest)
      reads this
      ensures r.deliveryAddressId == addressId && r.shippingCost == selectedDeliveryPrice && r.discount == voucher.discount
      ensures r.notes == (if voucher.applied then "Voucher: " + voucher.code else "")
    {
      OrderRequest(addressId, selectedDeliveryPrice, voucher.discount, selectedPayment,
                   if voucher.applied then "Voucher: " + voucher.code else "")
    }

    /**
     * Places the order. An invalid form changes nothing. Otherwise the
     * address is saved; a signed-in shopper with a token has the cart pushed
     * to the server, an address resolved and an order requested (the server
     * refuses when its cart is empty); whatever the server does, one order
     * record is appended and the stored cart removed, and the page's cart is
     * emptied only for a signed-in shopper. When the recorded orders do not
     * parse, reading them throws after the server calls: no record is
     * written and both carts of the browser stay as they were.
     *
     * fetched/outcomes answer the cart calls, listed/created the address
     * calls, reply the order call; stamp and time stand for the clock.
     */
    method PlaceOrder(fetched: Option<seq<RemoteCartItem>>, outcomes: seq<CallOutcome>,
                      listed: seq<RemoteAddress>, created: Option<int>, reply: Option<BackendOrder>,
                      stamp: string, time: string)
      returns (sync: Option<SyncState>, request: Option<OrderRequest>)
      modifies this`cartItems, this`cartCount, this`storedCart, this`storedAddress, this`orders, this`serverCart
      ensures !old(IsFormValid()) ==>
        sync.None? && request.None? && cartItems == old(cartItems) && cartCount == old(cartCount)
        && storedCart == old(storedCart) && storedAddress == old(storedAddress) && orders == old(orders)
        && serverCart == old(serverCart)
      ensures old(IsFormValid()) ==>
        storedAddress == Some(deliveryAddress)
        && (isLoggedIn && hasToken <==> sync.Some?)
        && (isLoggedIn && hasToken <==> request.Some?)
        && (sync.Some? ==> sync.value == Sync(OnCheckout, old(cartItems), fetched, old(serverCart), outcomes))
        && (request.Some? ==> request.value == old(OrderRequestFor(ResolveAddressId(deliveryAddress, listed, created))))
        && serverCart == (if sync.None? then old(serverCart)
                          else if sync.value.remote != map[] && reply.Some? then map[] else sync.value.remote)
      ensures old(IsFormValid()) && ordersReadable ==>
        storedCart.None?
        && |orders| == |old(orders)| + 1 && orders[..|old(orders)|] == old(orders)
        && orders[|old(orders)|] == old(PendingOrder(
             if request.Some? && sync.value.remote != map[] then reply else None, stamp, time))
        && (isLoggedIn ==> cartItems == [] && cartCount == 0)
        && (!isLoggedIn ==> cartItems == old(cartItems) && cartCount == old(cartCount))
      ensures old(IsFormValid()) && !ordersReadable ==>
        orders == old(orders) && storedCart == old(storedCart)
        && cartItems == old(cartItems) && cartCount == old(cartCount)
    {
      if !IsFormValid() {
        return None, None;
      }
      SaveAddress();
      sync := None;
      request := None;
      var backend: Option<BackendOrder> := None;
      if isLoggedIn && hasToken {
        var st := RunSync(OnCheckout, cartItems, fetched, serverCart, outcomes);
        serverCart := st.remote;
        sync := Some(st);
        var addressId := ResolveAddressId(deliveryAddress, listed, created);
        request := Some(OrderRequestFor(addressId));
        if serverCart != map[] && reply.Some? {
          backend := reply;
          serverCart := map[];
        }
      }
      RecordOrder(backend, stamp, time);
    }

    /**
     * The browser half of placing an order: the order record is appended to
     * the recorded orders, the stored cart removed and, when signed in, the
     * page's cart emptied. Orders that do not parse throw first, so nothing
     * of this happens.
     */
    method RecordOrder(backend: Option<BackendOrder>, stamp: string, time: string)
      modifies this`cartItems, this`cartCount, this`storedCart, this`orders
      ensures ordersReadable ==>
        orders == old(orders) + [old(PendingOrder(backend, stamp, time))] && storedCart.None?
        && (isLoggedIn ==> cartItems == [] && cartCount == 0)
        && (!isLoggedIn ==> cartItems == old(cartItems) && cartCount == old(cartCount))
      ensures !ordersReadable ==>
        orders == old(orders) && storedCart == old(storedCart)
        && cartItems == old(cartItems) && cartCount == old(cartCount)
    {
      if !ordersReadable {
        return;
      }
      var order := PendingOrder(backend, stamp, time);
      orders := orders + [order];
      storedCart := None;
      if isLoggedIn {
        cartItems := [];
        cartCount := 0;
      }
    }
  }
}
