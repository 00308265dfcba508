/** The cart page (cart.html): the cart lines, their totals and the edits the page offers. */
module CartPage {
  import opened Wrappers
  import opened Catalog
  import opened CartLines

  /** The page's 10% tax on the subtotal. */
  function Tax(subtotal: real): (r: real)
    ensures r * 10.0 == subtotal
    ensures subtotal >= 0.0 ==> 0.0 <= r <= subtotal
  {
    subtotal * 0.1
  }

  /** Subtotal plus tax: eleven tenths of the subtotal. */
  function Total(subtotal: real): (r: real)
    ensures r == subtotal * 1.1
    ensures subtotal >= 0.0 ==> r >= subtotal
  {
    subtotal + Tax(subtotal)
  }

  class CartPage {
    var cartItems: seq<CartLine>
    var cartCount: int
    /** What localStorage holds under 'shopvue_cart'; None when the key is absent. */
    var storedCart: Option<seq<CartLine>>

    /** cartCount shows the number of units in the cart. */
    predicate Valid()
      reads this
    {
      cartCount == Count(cartItems)
    }

    /** Mounting the page loads the saved cart, if there is one, and counts it. */
    constructor (saved: Option<seq<CartLine>>)
      ensures Valid()
      ensures storedCart == saved
      ensures cartItems == saved.GetOr([])
    {
      storedCart := saved;
      cartItems := saved.GetOr([]);
      cartCount := Count(saved.GetOr([]));
    }

    function PageSubtotal(): real
      reads this
    {
      Subtotal(cartItems)
    }

    function PageTotal(): (r: real)
      reads this
      ensures r == Subtotal(cartItems) * 1.1
    {
      Total(Subtotal(cartItems))
    }

    /** Writes the lines to storage and recounts the badge. */
    method SaveCartToStorage()
      modifies this
      ensures cartItems == old(cartItems)
      ensures storedCart == Some(cartItems)
      ensures cartCount == Count(cartItems)
    {
      storedCart := Some(cartItems);
      cartCount := Count(cartItems);
    }

    /**
     * Sets the quantity of the line with that id; a quantity of 0 or less
     * removes the line instead, and an id with no line changes nothing.
     */
    method UpdateQuantity(id: ProductId, quantity: int)
      modifies this
      ensures FindIndex(old(cartItems), id).None? ==>
        cartItems == old(cartItems) && cartCount == old(cartCount) && storedCart == old(storedCart)
      ensures FindIndex(old(cartItems), id).Some? && quantity <= 0 ==>
        cartItems == RemoveId(old(cartItems), id)
      ensures FindIndex(old(cartItems), id).Some? && quantity > 0 ==>
        cartItems == SetQuantity(old(cartItems), FindIndex(old(cartItems), id).value, quantity)
      ensures FindIndex(old(cartItems), id).Some? ==> storedCart == Some(cartItems) && Valid()
      ensures UniqueIds(old(cartItems)) ==> UniqueIds(cartItems)
    {
      match FindIndex(cartItems, id)
      case None =>
      case Some(k) =>
        if quantity <= 0 {
          RemoveItem(id);
        } else {
          SetQuantityKeepsUnique(cartItems, k, quantity);
          cartItems := SetQuantity(cartItems, k, quantity);
          SaveCartToStorage();
        }
    }

    /** Keeps exactly the lines whose id differs, in their order, then saves. */
    method RemoveItem(id: ProductId)
      modifies this
      ensures cartItems == RemoveId(old(cartItems), id)
      ensures storedCart == Some(cartItems) && Valid()
      ensures UniqueIds(old(cartItems)) ==> UniqueIds(cartItems)
    {
      if UniqueIds(cartItems) {
        RemoveIdKeepsUnique(cartItems, id);
      }
      cartItems := RemoveId(cartItems, id);
      SaveCartToStorage();
    }

    /** Empties the cart, but only when the shopper confirms. */
    method ClearCart(confirmed: bool)
      modifies this
      ensures confirmed ==> cartItems == [] && storedCart == Some([]) && cartCount == 0
      ensures !confirmed ==>
        cartItems == old(cartItems) && cartCount == old(cartCount) && storedCart == old(storedCart)
    {
      if confirmed {
        cartItems := [];
        SaveCartToStorage();
      }
    }

    /** The checkout button goes on to checkout only with a non-empty cart. */
    method ProceedToCheckout() returns (proceeds: bool)
      ensures proceeds <==> cartItems != []
    {
      if |cartItems| == 0 {
        return false;
      }
      return true;
    }
  }

  /** Removing a line lowers the page subtotal by exactly that line's total. */
  lemma RemoveLowersSubtotal(lines: seq<CartLine>, k: nat)
    requires UniqueIds(lines) && k < |lines|
    ensures Subtotal(RemoveId(lines, lines[k].id)) == Subtotal(lines) - LineTotal(lines[k])
    ensures Count(RemoveId(lines, lines[k].id)) == Count(lines) - lines[k].quantity
  {
    RemoveIdUnique(lines, k);
    var a, b := lines[..k], lines[k + 1..];
    assert lines == a + [lines[k]] + b;
    SubtotalSplit(a, lines[k], b);
    CountSplit(a, lines[k], b);
  }

  lemma SubtotalSplit(a: seq<CartLine>, x: CartLine, b: seq<CartLine>)
    ensures Subtotal(a + [x] + b) == Subtotal(a + b) + LineTotal(x)
  {
    SubtotalAppend(a + [x], b);
    SubtotalAppend(a, [x]);
    SubtotalAppend(a, b);
    SubtotalSingle(x);
  }

  lemma CountSplit(a: seq<CartLine>, x: CartLine, b: seq<CartLine>)
    ensures Count(a + [x] + b) == Count(a + b) + x.quantity
  {
    CountAppend(a + [x], b);
    CountAppend(a, [x]);
    CountAppend(a, b);
    CountSingle(x);
  }
}
