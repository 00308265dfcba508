/**
 * The cart side panel. It shows the lines it is given and their subtotal
 * (CartLines.Subtotal) and never changes the cart itself: its buttons only
 * ask the page that hosts it for a new quantity or a removal. The hosting
 * product and search pages set the quantity they are asked for and remove
 * the line they are told to.
 */
module CartSidebar {
  import opened Wrappers
  import opened CartLines
  import CartPage

  /** What the panel asks its page to do. */
  datatype SidebarEvent = UpdateQuantity(item: CartLine, quantity: int) | RemoveItem(item: CartLine)

  /** The plus button asks for one more unit. */
  function IncreaseQuantity(item: CartLine): (e: SidebarEvent)
    ensures e.UpdateQuantity? && e.item == item && e.quantity == item.quantity + 1
  {
    UpdateQuantity(item, item.quantity + 1)
  }

  /** The minus button asks for one unit fewer, or for removal of the last unit. */
  function DecreaseQuantity(item: CartLine): (e: SidebarEvent)
    ensures e.item == item
    ensures e.RemoveItem? <==> item.quantity <= 1
    ensures e.UpdateQuantity? ==> e.quantity == item.quantity - 1 >= 1
  {
    if item.quantity > 1 then UpdateQuantity(item, item.quantity - 1) else RemoveItem(item)
  }

  /** What the hosting page does with a request. */
  function Apply(lines: seq<CartLine>, e: SidebarEvent): seq<CartLine>
  {
    match e
    case UpdateQuantity(item, q) =>
      (match FindIndex(lines, item.id)
       case None => lines
       case Some(k) => SetQuantity(lines, k, q))
    case RemoveItem(item) => RemoveId(lines, item.id)
  }

  /** Every line holds at least one unit. */
  predicate AllPositive(lines: seq<CartLine>)
  {
    forall i :: 0 <= i < |lines| ==> lines[i].quantity >= 1
  }

  /**
   * The buttons never bring a line below one unit: the host pages set
   * any quantity they are asked for, so this rests on the panel alone.
   */
  lemma ButtonsKeepQuantitiesPositive(lines: seq<CartLine>, item: CartLine, increase: bool)
    requires AllPositive(lines) && item in lines
    ensures AllPositive(Apply(lines, if increase then IncreaseQuantity(item) else DecreaseQuantity(item)))
  {
    var e := if increase then IncreaseQuantity(item) else DecreaseQuantity(item);
    if e.RemoveItem? {
      RemoveIdMembers(lines, item.id);
      var r := RemoveId(lines, item.id);
      forall i | 0 <= i < |r| ensures r[i].quantity >= 1 {
        assert r[i] in lines;
      }
    }
  }

  /** With one line per product, each button press moves the unit count by exactly one. */
  lemma ButtonsMoveCountByOne(lines: seq<CartLine>, k: nat)
    requires UniqueIds(lines) && k < |lines| && lines[k].quantity >= 1
    ensures Count(Apply(lines, IncreaseQuantity(lines[k]))) == Count(lines) + 1
    ensures Count(Apply(lines, DecreaseQuantity(lines[k]))) == Count(lines) - 1
  {
    var item := lines[k];
    assert FindIndex(lines, item.id) == Some(k) by {
      assert item.id in Ids(lines);
    }
    CountAfterSetQuantity(lines, k, item.quantity + 1);
    if item.quantity > 1 {
      CountAfterSetQuantity(lines, k, item.quantity - 1);
    } else {
      CartPage.RemoveLowersSubtotal(lines, k);
    }
  }
}
