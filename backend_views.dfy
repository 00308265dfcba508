/**
 * The server's cart and order endpoints, its product search and the input
 * check of its login. The database tables the endpoints touch are the
 * fields of a Store; each endpoint is a method on it.
 */
module BackendViews {
  import opened Wrappers
  import opened Strings

  type UserId = int

  /** A product row; only active products are listed or searched. */
  datatype StoredProduct = StoredProduct(id: int, name: string, description: string, price: real, isActive: bool)

  /** A cart row: one user's units of one product. */
  datatype CartRow = CartRow(user: UserId, product: StoredProduct, quantity: int)

  /** A cart row's total price: unit price times quantity. */
  function RowTotal(r: CartRow): real
  {
    r.product.price * r.quantity as real
  }

  datatype Order = Order(
    orderNumber: string, user: UserId, deliveryAddressId: Option<int>,
    subtotal: real, shippingCost: real, discount: real, total: real,
    paymentMethod: string, notes: string)

  datatype OrderItem = OrderItem(
    orderNumber: string, productId: int, productName: string, quantity: int, price: real, total: real)

  datatype OrderResponse = Created(order: Order) | BadRequest(error: string)

  // ---------------------------------------------------------------------
  // Specification functions over the cart table

  /** A user's cart rows, in table order. */
  function UserRows(rows: seq<CartRow>, user: UserId): (r: seq<CartRow>)
    ensures |r| <= |rows|
    ensures forall i :: 0 <= i < |r| ==> r[i].user == user
  {
    if rows == [] then []
    else
      var last := rows[|rows| - 1];
      UserRows(rows[..|rows| - 1], user) + (if last.user == user then [last] else [])
  }

  /** The rows of everybody else. */
  function OtherRows(rows: seq<CartRow>, user: UserId): (r: seq<CartRow>)
    ensures |r| <= |rows|
    ensures forall i :: 0 <= i < |r| ==> r[i].user != user
  {
    if rows == [] then []
    else
      var last := rows[|rows| - 1];
      OtherRows(rows[..|rows| - 1], user) + (if last.user != user then [last] else [])
  }

  /** The sum of the rows' total prices. */
  function RowsTotal(rows: seq<CartRow>): real
  {
    if rows == [] then 0.0 else RowsTotal(rows[..|rows| - 1]) + RowTotal(rows[|rows| - 1])
  }

  /** The units of one product in one user's cart. */
  function Units(rows: seq<CartRow>, user: UserId, productId: int): int
  {
    if rows == [] then 0
    else
      var last := rows[|rows| - 1];
      Units(rows[..|rows| - 1], user, productId)
        + (if last.user == user && last.product.id == productId then last.quantity else 0)
  }

  /** At most one row per user and product. */
  predicate OneRowEach(rows: seq<CartRow>)
  {
    forall i, j :: 0 <= i < j < |rows| ==>
      !(rows[i].user == rows[j].user && rows[i].product.id == rows[j].product.id)
  }

  /** The row of this user and product, if there is one. */
  function FindRow(rows: seq<CartRow>, user: UserId, productId: int): (r: Option<nat>)
    ensures r.Some? ==> r.value < |rows| && rows[r.value].user == user && rows[r.value].product.id == productId
    ensures r.None? ==> forall i :: 0 <= i < |rows| ==> !(rows[i].user == user && rows[i].product.id == productId)
  {
    if rows == [] then None
    else if rows[0].user == user && rows[0].product.id == productId then Some(0)
    else
      match FindRow(rows[1..], user, productId)
      case None => None
      case Some(k) => Some(k + 1)
  }

  /** get_or_create, then add: the cart table after a user adds q units of a product. */
  function AddToCart(rows: seq<CartRow>, user: UserId, product: StoredProduct, q: int): seq<CartRow>
  {
    match FindRow(rows, user, product.id)
    case None => rows + [CartRow(user, product, q)]
    case Some(k) => rows[k := rows[k].(quantity := rows[k].quantity + q)]
  }

  /** The order item copied from a cart row. */
  function ItemOf(orderNumber: string, r: CartRow): OrderItem
  {
    OrderItem(orderNumber, r.product.id, r.product.name, r.quantity, r.product.price, RowTotal(r))
  }

  function ItemsFor(orderNumber: string, rows: seq<CartRow>): (r: seq<OrderItem>)
    ensures |r| == |rows|
    ensures forall i :: 0 <= i < |rows| ==> r[i] == ItemOf(orderNumber, rows[i])
  {
    seq(|rows|, i requires 0 <= i < |rows| => ItemOf(orderNumber, rows[i]))
  }

  function ItemsTotal(items: seq<OrderItem>): real
  {
    if items == [] then 0.0 else ItemsTotal(items[..|items| - 1]) + items[|items| - 1].total
  }

  // ---------------------------------------------------------------------
  // Lemmas about the cart table

  lemma {:induction false} UnitsAppend(rows: seq<CartRow>, r: CartRow, user: UserId, productId: int)
    ensures Units(rows + [r], user, productId)
      == Units(rows, user, productId) + (if r.user == user && r.product.id == productId then r.quantity else 0)
  {
    assert (rows + [r])[..|rows|] == rows;
  }

  /** Changing one row's quantity changes the units of its user and product by the difference, and no others. */
  lemma {:induction false} UnitsUpdate(rows: seq<CartRow>, k: nat, q: int, user: UserId, productId: int)
    requires k < |rows|
    ensures Units(rows[k := rows[k].(quantity := q)], user, productId)
      == Units(rows, user, productId)
         + (if rows[k].user == user && rows[k].product.id == productId then q - rows[k].quantity else 0)
    decreases |rows|
  {
    var rows' := rows[k := rows[k].(quantity := q)];
    var n := |rows| - 1;
    if k < n {
      assert rows'[..n] == rows[..n][k := rows[k].(quantity := q)];
      UnitsUpdate(rows[..n], k, q, user, productId);
    } else {
      assert rows'[..n] == rows[..n];
    }
  }

  /**
   * Adding q units of a product to a user's cart raises that user's units
   * of that product by q and leaves every other user and product as they
   * were, with still one row per user and product.
   */
  lemma AddToCartSpec(rows: seq<CartRow>, user: UserId, product: StoredProduct, q: int, u: UserId, pid: int)
    requires OneRowEach(rows)
    ensures OneRowEach(AddToCart(rows, user, product, q))
    ensures Units(AddToCart(rows, user, product, q), u, pid)
      == Units(rows, u, pid) + (if u == user && pid == product.id then q else 0)
  {
    match FindRow(rows, user, product.id)
    case None =>
      UnitsAppend(rows, CartRow(user, product, q), u, pid);
    case Some(k) =>
      UnitsUpdate(rows, k, rows[k].quantity + q, u, pid);
  }

  lemma {:induction false} RowsTotalAppend(rows: seq<CartRow>, r: CartRow)
    ensures RowsTotal(rows + [r]) == RowsTotal(rows) + RowTotal(r)
  {
    assert (rows + [r])[..|rows|] == rows;
  }

  /** The order's items total exactly the rows they were copied from. */
  lemma {:induction false} ItemsTotalMatches(orderNumber: string, rows: seq<CartRow>)
    ensures ItemsTotal(ItemsFor(orderNumber, rows)) == RowsTotal(rows)
    decreases |rows|
  {
    if rows != [] {
      var n := |rows| - 1;
      ItemsTotalMatches(orderNumber, rows[..n]);
      assert ItemsFor(orderNumber, rows)[..n] == ItemsFor(orderNumber, rows[..n]);
    }
  }

  /** Taking a user's rows out leaves that user nothing and everybody else everything. */
  lemma OtherRowsSpec(rows: seq<CartRow>, user: UserId, v: UserId)
    ensures UserRows(OtherRows(rows, user), user) == []
    ensures v != user ==> UserRows(OtherRows(rows, user), v) == UserRows(rows, v)
  {
    UserRowsOfNone(OtherRows(rows, user), user);
    if v != user {
      OtherRowsKeepOthers(rows, user, v);
    }
  }

  /** A user with no row has no rows to collect. */
  lemma {:induction false} UserRowsOfNone(rows: seq<CartRow>, user: UserId)
    requires forall i :: 0 <= i < |rows| ==> rows[i].user != user
    ensures UserRows(rows, user) == []
    decreases |rows|
  {
    if rows != [] {
      UserRowsOfNone(rows[..|rows| - 1], user);
    }
  }

  lemma {:induction false} OtherRowsKeepOthers(rows: seq<CartRow>, user: UserId, v: UserId)
    requires v != user
    ensures UserRows(OtherRows(rows, user), v) == UserRows(rows, v)
    decreases |rows|
  {
    if rows != [] {
      var n := |rows| - 1;
      var last := rows[n];
      OtherRowsKeepOthers(rows[..n], user, v);
      var o := OtherRows(rows[..n], user);
      if last.user != user {
        assert OtherRows(rows, user) == o + [last];
        UserRowsAppend(o, last, v);
      } else {
        assert OtherRows(rows, user) == o;
      }
    }
  }

  lemma {:induction false} UserRowsAppend(rows: seq<CartRow>, r: CartRow, user: UserId)
    ensures UserRows(rows + [r], user) == UserRows(rows, user) + (if r.user == user then [r] else [])
  {
    assert (rows + [r])[..|rows|] == rows;
  }

  /** A subsequence of rows keeps at most one row per user and product. */
  lemma OtherRowsKeepsOneRowEach(rows: seq<CartRow>, user: UserId)
    requires OneRowEach(rows)
    ensures OneRowEach(OtherRows(rows, user))
  {
    OtherRowsMembers(rows, user);
    var o := OtherRows(rows, user);
    forall i, j | 0 <= i < j < |o|
      ensures !(o[i].user == o[j].user && o[i].product.id == o[j].product.id)
    {
      OtherRowsOrder(rows, user, i, j);
    }
  }

  lemma {:induction false} OtherRowsMembers(rows: seq<CartRow>, user: UserId)
    ensures forall r :: r in OtherRows(rows, user) ==> r in rows
    decreases |rows|
  {
    if rows != [] {
      OtherRowsMembers(rows[..|rows| - 1], user);
    }
  }

  /** Two rows of the filtered table come from two distinct positions of the original, in the same order. */
  lemma {:induction false} OtherRowsOrder(rows: seq<CartRow>, user: UserId, i: nat, j: nat)
    requires i < j < |OtherRows(rows, user)|
    ensures exists a, b :: 0 <= a < b < |rows| && rows[a] == OtherRows(rows, user)[i] && rows[b] == OtherRows(rows, user)[j]
    decreases |rows|
  {
    var n := |rows| - 1;
    var o := OtherRows(rows[..n], user);
    if j < |o| {
      OtherRowsOrder(rows[..n], user, i, j);
      var a, b :| 0 <= a < b < n && rows[..n][a] == o[i] && rows[..n][b] == o[j];
      assert rows[a] == OtherRows(rows, user)[i] && rows[b] == OtherRows(rows, user)[j];
    } else {
      OtherRowsMembers(rows[..n], user);
      assert OtherRows(rows, user)[i] == o[i] && o[i] in rows[..n];
      var a :| 0 <= a < n && rows[..n][a] == o[i];
      assert rows[a] == OtherRows(rows, user)[i] && rows[n] == OtherRows(rows, user)[j];
    }
  }

  // ---------------------------------------------------------------------
  // The endpoints

  class Store {
    var cart: seq<CartRow>
    var orders: seq<Order>
    var orderItems: seq<OrderItem>

    /** One cart row per user and product, as get_or_create relies on. */
    predicate Valid()
      reads this
    {
      OneRowEach(cart)
    }

    constructor ()
      ensures Valid() && cart == [] && orders == [] && orderItems == []
    {
      cart := [];
      orders := [];
      orderItems := [];
    }

    /**
     * Adding to the cart: a new row with the requested quantity (1 when
     * none is given), or the existing row grown by it.
     */
    method PerformCreate(user: UserId, product: StoredProduct, quantity: Option<int>)
      requires Valid()
      modifies this`cart
      ensures Valid()
      ensures cart == AddToCart(old(cart), user, product, quantity.GetOr(1))
    {
      var q := quantity.GetOr(1);
      AddToCartSpec(cart, user, product, q, user, product.id);
      match FindRow(cart, user, product.id)
      case None =>
        cart := cart + [CartRow(user, product, q)];
      case Some(k) =>
        cart := cart[k := cart[k].(quantity := cart[k].quantity + q)];
    }

    /** The cart total endpoint: the sum of the user's row totals and the number of rows. */
    method Total(user: UserId) returns (total: real, count: nat)
      ensures total == RowsTotal(UserRows(cart, user))
      ensures count == |UserRows(cart, user)|
    {
      total, count := 0.0, 0;
      var i := 0;
      while i < |cart|
        invariant 0 <= i <= |cart|
        invariant total == RowsTotal(UserRows(cart[..i], user))
        invariant count == |UserRows(cart[..i], user)|
      {
        assert cart[..i + 1] == cart[..i] + [cart[i]];
        UserRowsAppend(cart[..i], cart[i], user);
        if cart[i].user == user {
          RowsTotalAppend(UserRows(cart[..i], user), cart[i]);
          total := total + RowTotal(cart[i]);
          count := count + 1;
        } else {
          assert UserRows(cart[..i + 1], user) == UserRows(cart[..i], user);
        }
        i := i + 1;
      }
      assert cart[..i] == cart;
    }

    /**
     * Placing an order from the user's cart. An empty cart is refused with
     * 400 'Cart is empty' and nothing changes. Otherwise one order is
     * recorded with subtotal the sum of the row totals and total subtotal
     * plus shipping minus discount (no tax, no clamp), one item is copied
     * per row, and the user's cart is emptied.
     */
    method CreateOrder(user: UserId, shipping: real, discount: real, addressId: Option<int>,
                       paymentMethod: string, notes: string, orderNumber: string)
      returns (resp: OrderResponse)
      requires Valid()
      modifies this
      ensures Valid()
      ensures UserRows(old(cart), user) == [] ==>
        resp == BadRequest("Cart is empty")
        && cart == old(cart) && orders == old(orders) && orderItems == old(orderItems)
      ensures UserRows(old(cart), user) != [] ==>
        var subtotal := RowsTotal(UserRows(old(cart), user));
        resp == Created(Order(orderNumber, user, addressId, subtotal, shipping, discount,
                              subtotal + shipping - discount, paymentMethod, notes))
        && orders == old(orders) + [resp.order]
        && orderItems == old(orderItems) + ItemsFor(orderNumber, UserRows(old(cart), user))
        && cart == OtherRows(old(cart), user)
    {
      var mine := UserRows(cart, user);
      if |mine| == 0 {
        return BadRequest("Cart is empty");
      }
      var subtotal := RowsTotal(mine);
      var order := Order(orderNumber, user, addressId, subtotal, shipping, discount,
                         subtotal + shipping - discount, paymentMethod, notes);
      orders := orders + [order];
      var i := 0;
      while i < |mine|
        invariant 0 <= i <= |mine|
        invariant orderItems == old(orderItems) + ItemsFor(orderNumber, mine[..i])
        invariant cart == old(cart) && orders == old(orders) + [order]
      {
        assert ItemsFor(orderNumber, mine[..i + 1]) == ItemsFor(orderNumber, mine[..i]) + [ItemOf(orderNumber, mine[i])];
        orderItems := orderItems + [ItemOf(orderNumber, mine[i])];
        i := i + 1;
      }
      assert mine[..i] == mine;
      OtherRowsKeepsOneRowEach(cart, user);
      cart := OtherRows(cart, user);
      resp := Created(order);
    }
  }

  /**
   * A placed order is consistent with the cart it came from: its items
   * total its subtotal, the user's cart is then empty, and every other
   * user's cart is untouched.
   */
  lemma CreateOrderConsistent(rows: seq<CartRow>, user: UserId, orderNumber: string, v: UserId)
    ensures ItemsTotal(ItemsFor(orderNumber, UserRows(rows, user))) == RowsTotal(UserRows(rows, user))
    ensures UserRows(OtherRows(rows, user), user) == []
    ensures v != user ==> UserRows(OtherRows(rows, user), v) == UserRows(rows, v)
  {
    ItemsTotalMatches(orderNumber, UserRows(rows, user));
    OtherRowsSpec(rows, user, v);
  }

  // ---------------------------------------------------------------------
  // Product search and login

  /** Case-insensitive containment, for the ASCII letters. */
  predicate IContains(s: string, t: string)
  {
    Contains(ToLower(s), ToLower(t))
  }

  predicate SearchHit(p: StoredProduct, q: string)
  {
    p.isActive && (IContains(p.name, q) || IContains(p.description, q))
  }

  /** The search endpoint: nothing for an empty query, else the active products whose name or description contains it. */
  function Search(q: string, products: seq<StoredProduct>): (r: seq<StoredProduct>)
    ensures q == "" ==> r == []
    ensures |r| <= |products|
    ensures forall i :: 0 <= i < |r| ==> SearchHit(r[i], q)
  {
    if q == "" || products == [] then []
    else if SearchHit(products[0], q) then [products[0]] + Search(q, products[1..])
    else Search(q, products[1..])
  }

  /** A product is found exactly when it is listed, active and matches a non-empty query. */
  lemma {:induction false} SearchMembers(q: string, products: seq<StoredProduct>, p: StoredProduct)
    ensures p in Search(q, products) <==> q != "" && p in products && SearchHit(p, q)
    decreases |products|
  {
    if q != "" && products != [] {
      SearchMembers(q, products[1..], p);
      assert products == [products[0]] + products[1..];
    }
  }

  datatype LoginResponse = LoginMissing(error: string) | LoginRefused(error: string) | LoggedIn(username: string)

  /**
   * Login: a missing or empty user name or password is refused with 400
   * before the credentials are checked; otherwise the credential check
   * (a parameter) decides.
   */
  function Login(username: Option<string>, password: Option<string>, authenticate: (string, string) -> bool): (r: LoginResponse)
    ensures r.LoginMissing? <==> username.None? || username.value == "" || password.None? || password.value == ""
    ensures r.LoginMissing? ==> r.error == "Username and password required"
    ensures r.LoggedIn? <==> username.Some? && username.value != "" && password.Some? && password.value != ""
                             && authenticate(username.value, password.value)
    ensures r.LoggedIn? ==> username == Some(r.username)
    ensures r.LoginRefused? ==> r.error == "Invalid credentials"
  {
    if username.None? || username.value == "" || password.None? || password.value == "" then
      LoginMissing("Username and password required")
    else if authenticate(username.value, password.value) then LoggedIn(username.value)
    else LoginRefused("Invalid credentials")
  }

  /** An incomplete login never reaches the credential check: any checker gives the same answer. */
  lemma LoginGuardPrecedesCheck(username: Option<string>, password: Option<string>,
                                a1: (string, string) -> bool, a2: (string, string) -> bool)
    requires username.None? || username.value == "" || password.None? || password.value == ""
    ensures Login(username, password, a1) == Login(username, password, a2)
  {
  }
}
