/**
 * The account page (account.html): the tab chosen by the URL, the order
 * history (from the server, else the browser's orders of this user), the
 * address book with its fallback to the saved delivery address, the
 * notification settings merged over their defaults, and deleting an
 * address from the book.
 */
module AccountPage {
  import opened Wrappers
  import opened Addresses
  import opened CartLines
  import opened AddressFormPage
  import opened Checkout

  /** The answer of a server call: it failed, or it returned a list (an empty or null list alike). */
  datatype Fetch<T> = Failed | Fetched(items: seq<T>)

  /** The tabs the page has; the URL's 'tab' parameter may pick any of them. */
  const Tabs: seq<string> := ["details", "orders", "addresses", "settings"]

  /** The tab after reading the URL: the parameter when it names a tab, else the current one. */
  function AdoptTab(current: string, param: Option<string>): (r: string)
    ensures param.Some? && param.value in Tabs ==> r == param.value
    ensures !(param.Some? && param.value in Tabs) ==> r == current
    ensures current in Tabs ==> r in Tabs
  {
    if param.Some? && param.value != "" && param.value in Tabs then param.value else current
  }

  // ---------------------------------------------------------------------
  // Orders

  /** An order line as the server's order serializer lists it. */
  datatype ServerOrderItem = ServerOrderItem(id: int, product: int, productName: string, quantity: int, price: real, total: real)

  /** An order as getOrders returns it; amounts are already parsed, a missing list or address is None. */
  datatype ServerOrder = ServerOrder(
    id: int, orderNumber: string, items: Option<seq<ServerOrderItem>>, deliveryAddress: Option<Place>,
    subtotal: real, total: real, status: string, paymentMethod: string, createdAt: string)

  /** A server order in the page's own shape. */
  datatype OrderView = OrderView(
    id: int, orderNumber: string, userEmail: string, items: seq<ServerOrderItem>, deliveryAddress: Place,
    subtotal: real, tax: real, total: real, status: string, paymentMethod: string, timestamp: string)

  /** The page lists either server orders or the orders the browser recorded at checkout. */
  datatype ShownOrder = FromServer(view: OrderView) | Local(record: OrderRecord)

  /** The tax rate the page shows for server orders. */
  const TaxRate: real := 0.05

  function ViewOf(o: ServerOrder, email: string): OrderView
  {
    OrderView(o.id, o.orderNumber, email, o.items.GetOr([]), o.deliveryAddress.GetOr(NoPlace),
      o.subtotal, o.subtotal * TaxRate, o.total, o.status, o.paymentMethod, o.createdAt)
  }

  function ServerOrders(os: seq<ServerOrder>, email: string): seq<ShownOrder>
  {
    seq(|os|, i requires 0 <= i < |os| => FromServer(ViewOf(os[i], email)))
  }

  /**
   * Server orders are shown one for one and in order, stamped with the
   * account's e-mail, with 5% of their subtotal as tax, no items for a
   * missing list and an empty address for a missing one.
   */
  lemma ServerOrdersSpec(os: seq<ServerOrder>, email: string, i: int)
    requires 0 <= i < |os|
    ensures var r := ServerOrders(os, email);
      |r| == |os| && r[i].FromServer?
      && r[i].view.id == os[i].id && r[i].view.orderNumber == os[i].orderNumber
      && r[i].view.userEmail == email
      && r[i].view.tax == os[i].subtotal / 20.0
      && r[i].view.subtotal == os[i].subtotal && r[i].view.total == os[i].total
      && (os[i].items.None? ==> r[i].view.items == [])
      && (os[i].deliveryAddress.None? ==> r[i].view.deliveryAddress == NoPlace)
  {
  }

  /** The recorded orders that belong to the account, in their recorded order. */
  function OwnOrders(all: seq<OrderRecord>, email: string): (r: seq<OrderRecord>)
    ensures |r| <= |all|
    decreases |all|
  {
    if all == [] then []
    else
      var rest := OwnOrders(all[..|all| - 1], email);
      if all[|all| - 1].userEmail == email then rest + [all[|all| - 1]] else rest
  }

  /** An order is listed exactly when it was recorded and carries the account's e-mail. */
  lemma {:induction false} OwnOrdersMembers(all: seq<OrderRecord>, email: string)
    ensures forall o :: o in OwnOrders(all, email) <==> o in all && o.userEmail == email
    decreases |all|
  {
    if all != [] {
      var pre := all[..|all| - 1];
      OwnOrdersMembers(pre, email);
      assert all == pre + [all[|all| - 1]];
    }
  }

  /** Nothing is dropped exactly when every recorded order is the account's. */
  lemma {:induction false} OwnOrdersAllIff(all: seq<OrderRecord>, email: string)
    ensures OwnOrders(all, email) == all <==> forall o :: o in all ==> o.userEmail == email
    decreases |all|
  {
    OwnOrdersMembers(all, email);
    if all != [] {
      var pre := all[..|all| - 1];
      var last := all[|all| - 1];
      OwnOrdersAllIff(pre, email);
      assert all == pre + [last];
    }
  }

  /** Recording one more order lists it at the end exactly when it carries the account's e-mail. */
  lemma OwnOrdersAppend(all: seq<OrderRecord>, o: OrderRecord, email: string)
    ensures o.userEmail == email ==> OwnOrders(all + [o], email) == OwnOrders(all, email) + [o]
    ensures o.userEmail != email ==> OwnOrders(all + [o], email) == OwnOrders(all, email)
  {
    assert (all + [o])[..|all|] == all;
  }

  /** An order placed at checkout while signed in shows up in that account's history. */
  lemma PlacedOrderListed(all: seq<OrderRecord>, o: OrderRecord, account: string, delivery: string)
    requires account != "" && o.userEmail == OrderEmail(account, delivery)
    ensures o in OwnOrders(all + [o], account)
  {
    OwnOrdersAppend(all, o, account);
  }

  function LocalOrders(all: seq<OrderRecord>): seq<ShownOrder>
  {
    seq(|all|, i requires 0 <= i < |all| => Local(all[i]))
  }

  /** Whether loadOrders takes the server's list: signed in, with a token, and a non-empty answer. */
  predicate UsesServer<T>(loggedIn: bool, hasToken: bool, fetched: Fetch<T>)
  {
    loggedIn && hasToken && fetched.Fetched? && |fetched.items| > 0
  }

  /**
   * The list and count loadOrders leaves: the server's orders; else the
   * account's recorded orders; an unreadable record empties the list but
   * keeps the count; with nothing recorded both stay as they were.
   */
  function OrdersAfterLoad(loggedIn: bool, hasToken: bool, email: string, fetched: Fetch<ServerOrder>,
                           saved: Stored<seq<OrderRecord>>, orders: seq<ShownOrder>, count: int): (seq<ShownOrder>, int)
  {
    if UsesServer(loggedIn, hasToken, fetched) then
      (ServerOrders(fetched.items, email), |fetched.items|)
    else match saved
      case Absent => (orders, count)
      case Corrupt => ([], count)
      case Present(all) =>
        var own := OwnOrders(all, email);
        (LocalOrders(own), |own|)
  }

  /**
   * After a load that read something, the count is the number of orders
   * listed, and every recorded order listed belongs to the account.
   */
  lemma OrdersAfterLoadSpec(loggedIn: bool, hasToken: bool, email: string, fetched: Fetch<ServerOrder>,
                            saved: Stored<seq<OrderRecord>>, orders: seq<ShownOrder>, count: int)
    ensures var (r, n) := OrdersAfterLoad(loggedIn, hasToken, email, fetched, saved, orders, count);
      (UsesServer(loggedIn, hasToken, fetched) || saved.Present?) ==> n == |r|
    ensures var (r, n) := OrdersAfterLoad(loggedIn, hasToken, email, fetched, saved, orders, count);
      !UsesServer(loggedIn, hasToken, fetched) && saved.Present? ==>
        forall i :: 0 <= i < |r| ==> r[i].Local? && r[i].record in saved.value && r[i].record.userEmail == email
    ensures var (r, n) := OrdersAfterLoad(loggedIn, hasToken, email, fetched, saved, orders, count);
      UsesServer(loggedIn, hasToken, fetched) ==> forall i :: 0 <= i < |r| ==> r[i].FromServer? && r[i].view.userEmail == email
  {
    if !UsesServer(loggedIn, hasToken, fetched) && saved.Present? {
      var own := OwnOrders(saved.value, email);
      OwnOrdersMembers(saved.value, email);
      assert forall i :: 0 <= i < |own| ==> own[i] in own;
    }
  }

  // ---------------------------------------------------------------------
  // Addresses

  /** An address as getAddresses returns it. */
  datatype ServerAddress = ServerAddress(
    id: int, fullName: string, phone: string, address: string, city: string, state: string,
    zipCode: string, country: string, addressType: string, isDefault: bool)

  /** The server's snake-case fields in the address book's shape. */
  function RecordOf(a: ServerAddress): (r: AddressRecord)
    ensures r.fullName == a.fullName && r.phone == a.phone && r.address == a.address
    ensures r.city == a.city && r.state == a.state && r.zipCode == a.zipCode && r.country == a.country
    ensures r.addressType == a.addressType && r.isDefault == a.isDefault
  {
    AddressRecord(a.fullName, a.phone, a.address, a.city, a.state, a.zipCode, a.country, a.addressType, a.isDefault)
  }

  function ServerAddresses(as_: seq<ServerAddress>): seq<AddressRecord>
  {
    seq(|as_|, i requires 0 <= i < |as_| => RecordOf(as_[i]))
  }

  /** The book from the user's own storage entry: kept when absent, emptied when unreadable. */
  function StoredBook(saved: Stored<seq<AddressRecord>>, book: seq<AddressRecord>): seq<AddressRecord>
  {
    match saved
    case Absent => book
    case Corrupt => []
    case Present(v) => v
  }

  /**
   * The address book loadAddresses leaves: the server's addresses; else
   * the user's stored book, which, when it ends up empty, becomes the
   * saved delivery address alone.
   */
  function AddressesAfterLoad(loggedIn: bool, hasToken: bool, fetched: Fetch<ServerAddress>,
                              saved: Stored<seq<AddressRecord>>, delivery: Stored<AddressRecord>,
                              book: seq<AddressRecord>): seq<AddressRecord>
  {
    if UsesServer(loggedIn, hasToken, fetched) then ServerAddresses(fetched.items)
    else
      var b := StoredBook(saved, book);
      if b == [] && delivery.Present? then [delivery.value] else b
  }

  /**
   * The saved delivery address stands in exactly when the server gave
   * nothing and the stored book is empty; a non-empty stored book is
   * shown as it is; the server's list is shown one for one.
   */
  lemma AddressesAfterLoadSpec(loggedIn: bool, hasToken: bool, fetched: Fetch<ServerAddress>,
                               saved: Stored<seq<AddressRecord>>, delivery: Stored<AddressRecord>,
                               book: seq<AddressRecord>)
    ensures var r := AddressesAfterLoad(loggedIn, hasToken, fetched, saved, delivery, book);
      UsesServer(loggedIn, hasToken, fetched) ==>
        |r| == |fetched.items| && forall i :: 0 <= i < |r| ==> r[i] == RecordOf(fetched.items[i])
    ensures var r := AddressesAfterLoad(loggedIn, hasToken, fetched, saved, delivery, book);
      !UsesServer(loggedIn, hasToken, fetched) && delivery.Present? ==>
        (r == [delivery.value] <==> StoredBook(saved, book) == [] || StoredBook(saved, book) == [delivery.value])
    ensures var r := AddressesAfterLoad(loggedIn, hasToken, fetched, saved, delivery, book);
      !UsesServer(loggedIn, hasToken, fetched) && StoredBook(saved, book) != [] ==> r == StoredBook(saved, book)
    ensures var r := AddressesAfterLoad(loggedIn, hasToken, fetched, saved, delivery, book);
      !UsesServer(loggedIn, hasToken, fetched) && !delivery.Present? ==> r == StoredBook(saved, book)
  {
  }

  /**
   * Array.prototype.splice(index, 1): a negative index counts from the
   * end (and is clamped to the start); an index past the end removes
   * nothing.
   */
  function SpliceOne<T>(s: seq<T>, index: int): seq<T>
  {
    var start := if index < 0 then (if |s| + index < 0 then 0 else |s| + index) else index;
    if start < |s| then s[..start] + s[start + 1..] else s
  }

  /**
   * Removing at a valid index drops exactly that address and keeps the
   * others in order; a negative index within range drops the one counted
   * from the end; an index past the end changes nothing.
   */
  lemma SpliceOneSpec<T>(s: seq<T>, index: int)
    ensures 0 <= index < |s| ==>
      |SpliceOne(s, index)| == |s| - 1
      && (forall j :: 0 <= j < index ==> SpliceOne(s, index)[j] == s[j])
      && (forall j :: index <= j < |s| - 1 ==> SpliceOne(s, index)[j] == s[j + 1])
      && multiset(SpliceOne(s, index)) + multiset{s[index]} == multiset(s)
    ensures -|s| <= index < 0 ==> SpliceOne(s, index) == SpliceOne(s, |s| + index)
    ensures index < -|s| && s != [] ==> SpliceOne(s, index) == s[1..]
    ensures index >= |s| ==> SpliceOne(s, index) == s
  {
    if 0 <= index < |s| {
      assert s == s[..index] + [s[index]] + s[index + 1..];
    }
  }

  // ---------------------------------------------------------------------
  // Settings

  /** The notification settings before any are saved. */
  const DefaultSettings: map<string, bool> := map["emailNotifications" := true, "smsNotifications" := false]

  /** Object spread of the saved settings over the current ones. */
  function MergeSettings(current: map<string, bool>, saved: map<string, bool>): (r: map<string, bool>)
    ensures forall k :: k in r <==> k in current || k in saved
    ensures forall k :: k in saved ==> r[k] == saved[k]
    ensures forall k :: k in current && k !in saved ==> r[k] == current[k]
  {
    current + saved
  }

  /** Loading the same saved settings twice changes nothing more. */
  lemma MergeSettingsIdempotent(current: map<string, bool>, saved: map<string, bool>)
    ensures MergeSettings(MergeSettings(current, saved), saved) == MergeSettings(current, saved)
  {
  }

  /** A saved blob that lacks a notification key leaves its default in place. */
  lemma MissingKeysKeepDefaults(saved: map<string, bool>)
    ensures "emailNotifications" !in saved ==> MergeSettings(DefaultSettings, saved)["emailNotifications"]
    ensures "smsNotifications" !in saved ==> !MergeSettings(DefaultSettings, saved)["smsNotifications"]
  {
  }

  // ---------------------------------------------------------------------
  // The page

  class AccountPage {
    var activeTab: string
    var isLoggedIn: bool
    /** userData.email: the key of the user's own storage entries. */
    var accountEmail: string
    var orders: seq<ShownOrder>
    var orderCount: int
    var addresses: seq<AddressRecord>
    var settings: map<string, bool>
    /** What the browser holds under 'shopvue_addresses_' and the account's e-mail. */
    var storedAddresses: Stored<seq<AddressRecord>>
    /** What the browser holds under 'shopvue_settings_' and the account's e-mail. */
    var storedSettings: Stored<map<string, bool>>

    /** The page's initial data, for the session checkAuthStatus found and that user's storage entries. */
    constructor (loggedIn: bool, email: string, book: Stored<seq<AddressRecord>>, prefs: Stored<map<string, bool>>)
      ensures activeTab == "details" && isLoggedIn == loggedIn && accountEmail == email
      ensures orders == [] && orderCount == 0 && addresses == [] && settings == DefaultSettings
      ensures storedAddresses == book && storedSettings == prefs
    {
      activeTab := "details";
      isLoggedIn := loggedIn;
      accountEmail := email;
      orders := [];
      orderCount := 0;
      addresses := [];
      settings := DefaultSettings;
      storedAddresses := book;
      storedSettings := prefs;
    }

    /** The last step of mounting: adopt the URL's tab when it names one. */
    method SelectTabFromUrl(param: Option<string>)
      modifies this`activeTab
      ensures activeTab == AdoptTab(old(activeTab), param)
    {
      if param.Some? && param.value != "" && param.value in Tabs {
        activeTab := param.value;
      }
    }

    /** loadOrders, given whether a token is stored, the server's answer and the recorded orders. */
    method LoadOrders(hasToken: bool, fetched: Fetch<ServerOrder>, saved: Stored<seq<OrderRecord>>)
      modifies this`orders, this`orderCount
      ensures (orders, orderCount) == OrdersAfterLoad(isLoggedIn, hasToken, accountEmail, fetched, saved, old(orders), old(orderCount))
    {
      if isLoggedIn && hasToken && fetched.Fetched? && |fetched.items| > 0 {
        orders := ServerOrders(fetched.items, accountEmail);
        orderCount := |orders|;
        return;
      }
      match saved {
        case Absent =>
        case Corrupt =>
          orders := [];
        case Present(all) =>
          var own := OwnOrders(all, accountEmail);
          orders := LocalOrders(own);
          orderCount := |orders|;
      }
    }

    /** loadAddresses, given whether a token is stored, the server's answer and the saved delivery address. */
    method LoadAddresses(hasToken: bool, fetched: Fetch<ServerAddress>, delivery: Stored<AddressRecord>)
      modifies this`addresses
      ensures addresses == AddressesAfterLoad(isLoggedIn, hasToken, fetched, storedAddresses, delivery, old(addresses))
    {
      if isLoggedIn && hasToken && fetched.Fetched? && |fetched.items| > 0 {
        addresses := ServerAddresses(fetched.items);
        return;
      }
      match storedAddresses {
        case Absent =>
        case Corrupt =>
          addresses := [];
        case Present(v) =>
          addresses := v;
      }
      if delivery.Present? && |addresses| == 0 {
        addresses := [delivery.value];
      }
    }

    /** loadSettings: saved settings override the current ones key by key; unreadable ones are ignored. */
    method LoadSettings()
      modifies this`settings
      ensures storedSettings.Present? ==> settings == MergeSettings(old(settings), storedSettings.value)
      ensures !storedSettings.Present? ==> settings == old(settings)
    {
      if storedSettings.Present? {
        settings := MergeSettings(settings, storedSettings.value);
      }
    }

    /** saveSettings: the current settings become the stored ones. */
    method SaveSettings()
      modifies this`storedSettings
      ensures storedSettings == Present(settings)
    {
      storedSettings := Present(settings);
    }

    /** deleteAddress: once confirmed, splice the address out and store the book; otherwise nothing. */
    method DeleteAddress(index: int, confirmed: bool)
      modifies this`addresses, this`storedAddresses
      ensures confirmed ==> addresses == SpliceOne(old(addresses), index) && storedAddresses == Present(addresses)
      ensures !confirmed ==> addresses == old(addresses) && storedAddresses == old(storedAddresses)
    {
      if confirmed {
        addresses := SpliceOne(addresses, index);
        storedAddresses := Present(addresses);
      }
    }
  }
}
