/**
 * The browser-side cart shared by every page: a sequence of lines keyed by
 * product id, the sums the pages derive from it, and the line operations
 * (add-or-increment, find, remove-by-id) the page controllers apply in place.
 */
module CartLines {
  import opened Wrappers
  import opened Catalog

  /** One entry of the cart array stored under 'shopvue_cart'. */
  datatype CartLine = CartLine(id: ProductId, name: string, price: real, image: string, quantity: int)

  function LineTotal(l: CartLine): real
  {
    l.price * l.quantity as real
  }

  /** The reduce of price * quantity over the lines, folded from the left. */
  function Subtotal(lines: seq<CartLine>): real
  {
    if lines == [] then 0.0 else Subtotal(lines[..|lines| - 1]) + LineTotal(lines[|lines| - 1])
  }

  /** The reduce of quantity over the lines: the badge count 'cartCount'. */
  function Count(lines: seq<CartLine>): int
  {
    if lines == [] then 0 else Count(lines[..|lines| - 1]) + lines[|lines| - 1].quantity
  }

  /** The subtotal of a concatenation is the sum of the subtotals. */
  lemma {:induction false} SubtotalAppend(a: seq<CartLine>, b: seq<CartLine>)
    ensures Subtotal(a + b) == Subtotal(a) + Subtotal(b)
    decreases |b|
  {
    if b != [] {
      assert (a + b)[..|a + b| - 1] == a + b[..|b| - 1];
      SubtotalAppend(a, b[..|b| - 1]);
    } else {
      assert a + b == a;
    }
  }

  /** The count of a concatenation is the sum of the counts. */
  lemma {:induction false} CountAppend(a: seq<CartLine>, b: seq<CartLine>)
    ensures Count(a + b) == Count(a) + Count(b)
    decreases |b|
  {
    if b != [] {
      assert (a + b)[..|a + b| - 1] == a + b[..|b| - 1];
      CountAppend(a, b[..|b| - 1]);
    } else {
      assert a + b == a;
    }
  }

  lemma SubtotalSingle(l: CartLine)
    ensures Subtotal([l]) == LineTotal(l)
  {
    assert [l][..0] == [];
  }

  lemma CountSingle(l: CartLine)
    ensures Count([l]) == l.quantity
  {
    assert [l][..0] == [];
  }

  /** Changing one line's quantity moves the count by exactly the difference. */
  lemma CountAfterSetQuantity(lines: seq<CartLine>, k: nat, q: int)
    requires k < |lines|
    ensures Count(lines[k := lines[k].(quantity := q)]) == Count(lines) - lines[k].quantity + q
  {
    var l2 := lines[k := lines[k].(quantity := q)];
    assert lines == lines[..k] + [lines[k]] + lines[k + 1..];
    assert l2 == lines[..k] + [l2[k]] + lines[k + 1..];
    CountAppend(lines[..k] + [lines[k]], lines[k + 1..]);
    CountAppend(lines[..k], [lines[k]]);
    CountAppend(lines[..k] + [l2[k]], lines[k + 1..]);
    CountAppend(lines[..k], [l2[k]]);
    CountSingle(lines[k]);
    CountSingle(l2[k]);
  }

  /** With no negative price and no negative quantity the subtotal is never negative. */
  lemma {:induction false} SubtotalNonNegative(lines: seq<CartLine>)
    requires forall i :: 0 <= i < |lines| ==> lines[i].price >= 0.0 && lines[i].quantity >= 0
    ensures Subtotal(lines) >= 0.0
    decreases |lines|
  {
    if lines != [] {
      SubtotalNonNegative(lines[..|lines| - 1]);
    }
  }

  /** The ids of the lines, in cart order. */
  function Ids(lines: seq<CartLine>): (r: seq<ProductId>)
    ensures |r| == |lines|
    ensures forall i :: 0 <= i < |lines| ==> r[i] == lines[i].id
  {
    seq(|lines|, i requires 0 <= i < |lines| => lines[i].id)
  }

  /** The cart invariant: at most one line per product id. */
  predicate UniqueIds(lines: seq<CartLine>)
  {
    forall i, j :: 0 <= i < j < |lines| ==> lines[i].id != lines[j].id
  }

  /** Array.prototype.find by id: the index of the first line with that id, if any. */
  function FindIndex(lines: seq<CartLine>, id: ProductId): (r: Option<nat>)
    ensures r.Some? ==> r.value < |lines| && lines[r.value].id == id
    ensures r.Some? ==> forall j :: 0 <= j < r.value ==> lines[j].id != id
    ensures r.None? <==> id !in Ids(lines)
  {
    if lines == [] then None
    else if lines[0].id == id then Some(0)
    else
      match FindIndex(lines[1..], id)
      case None => None
      case Some(k) => Some(k + 1)
  }

  /** Array.prototype.filter(line => line.id !== id). */
  function RemoveId(lines: seq<CartLine>, id: ProductId): (r: seq<CartLine>)
    ensures forall i :: 0 <= i < |r| ==> r[i].id != id
    ensures |r| <= |lines|
  {
    if lines == [] then []
    else if lines[0].id == id then RemoveId(lines[1..], id)
    else [lines[0]] + RemoveId(lines[1..], id)
  }

  /** The filter keeps exactly the lines whose id differs. */
  lemma {:induction false} RemoveIdMembers(lines: seq<CartLine>, id: ProductId)
    ensures forall l :: l in RemoveId(lines, id) <==> l in lines && l.id != id
    decreases |lines|
  {
    if lines != [] {
      RemoveIdMembers(lines[1..], id);
      assert lines == [lines[0]] + lines[1..];
    }
  }

  /** Filtering distributes over concatenation, so the kept lines stay in their original order. */
  lemma {:induction false} RemoveIdAppend(a: seq<CartLine>, b: seq<CartLine>, id: ProductId)
    ensures RemoveId(a + b, id) == RemoveId(a, id) + RemoveId(b, id)
    decreases |a|
  {
    if a == [] {
      assert a + b == b;
    } else {
      assert (a + b)[1..] == a[1..] + b;
      RemoveIdAppend(a[1..], b, id);
    }
  }

  /** Removing an id that is absent changes nothing. */
  lemma {:induction false} RemoveAbsentId(lines: seq<CartLine>, id: ProductId)
    requires forall i :: 0 <= i < |lines| ==> lines[i].id != id
    ensures RemoveId(lines, id) == lines
    decreases |lines|
  {
    if lines != [] {
      RemoveAbsentId(lines[1..], id);
      assert lines == [lines[0]] + lines[1..];
    }
  }

  /** In a cart with unique ids, removing the id of line k removes exactly that line. */
  lemma {:induction false} RemoveIdUnique(lines: seq<CartLine>, k: nat)
    requires UniqueIds(lines) && k < |lines|
    ensures RemoveId(lines, lines[k].id) == lines[..k] + lines[k + 1..]
    decreases k
  {
    var id := lines[k].id;
    var tail := lines[1..];
    if k == 0 {
      forall i | 0 <= i < |tail| ensures tail[i].id != id {
        assert tail[i] == lines[i + 1];
      }
      RemoveAbsentId(tail, id);
    } else {
      assert UniqueIds(tail) by {
        forall i, j | 0 <= i < j < |tail| ensures tail[i].id != tail[j].id {
          assert tail[i] == lines[i + 1] && tail[j] == lines[j + 1];
        }
      }
      assert tail[k - 1] == lines[k];
      RemoveIdUnique(tail, k - 1);
      assert lines[..k] == [lines[0]] + tail[..k - 1];
      assert lines[k + 1..] == tail[k..];
    }
  }

  /** Removing lines never breaks id uniqueness. */
  lemma {:induction false} RemoveIdKeepsUnique(lines: seq<CartLine>, id: ProductId)
    requires UniqueIds(lines)
    ensures UniqueIds(RemoveId(lines, id))
    decreases |lines|
  {
    if lines != [] {
      RemoveIdKeepsUnique(lines[1..], id);
      if lines[0].id != id {
        var rest := RemoveId(lines[1..], id);
        RemoveIdMembers(lines[1..], id);
        forall j | 0 <= j < |rest| ensures rest[j].id != lines[0].id {
          assert rest[j] in rest;
        }
      }
    }
  }

  /** The line a product becomes when it is first put in the cart. */
  function NewLine(p: Product): (l: CartLine)
    ensures l.id == p.id && l.quantity == 1 && l.price == p.price
  {
    CartLine(p.id, p.name, p.price, p.image, 1)
  }

  /**
   * The local part of handleAddToCart: bump the quantity of the line already
   * holding the product, or append a new line with quantity 1.
   */
  function AddOrIncrement(lines: seq<CartLine>, p: Product): seq<CartLine>
  {
    var f := FindIndex(lines, p.id);
    if f.Some? then lines[f.value := lines[f.value].(quantity := lines[f.value].quantity + 1)]
    else lines + [NewLine(p)]
  }

  /**
   * Adding a product raises the count by exactly one; an existing line is
   * bumped in place and no line is added, otherwise exactly one line with
   * quantity 1 is appended; every other line is untouched.
   */
  lemma AddOrIncrementSpec(lines: seq<CartLine>, p: Product)
    ensures Count(AddOrIncrement(lines, p)) == Count(lines) + 1
    ensures p.id in Ids(lines) ==> exists k :: 0 <= k < |lines| && BumpedAt(lines, AddOrIncrement(lines, p), k) && lines[k].id == p.id
    ensures p.id !in Ids(lines) ==> AddOrIncrement(lines, p) == lines + [NewLine(p)]
  {
    AddOrIncrementCount(lines, p);
    AddOrIncrementShape(lines, p);
  }

  lemma AddOrIncrementCount(lines: seq<CartLine>, p: Product)
    ensures Count(AddOrIncrement(lines, p)) == Count(lines) + 1
  {
    var r := AddOrIncrement(lines, p);
    var f := FindIndex(lines, p.id);
    if f.Some? {
      var k := f.value;
      assert r == lines[k := lines[k].(quantity := lines[k].quantity + 1)];
      CountAfterSetQuantity(lines, k, lines[k].quantity + 1);
    } else {
      assert r == lines + [NewLine(p)];
      CountAppend(lines, [NewLine(p)]);
      CountSingle(NewLine(p));
    }
  }

  lemma AddOrIncrementShape(lines: seq<CartLine>, p: Product)
    ensures p.id in Ids(lines) ==> exists k :: 0 <= k < |lines| && BumpedAt(lines, AddOrIncrement(lines, p), k) && lines[k].id == p.id
    ensures p.id !in Ids(lines) ==> AddOrIncrement(lines, p) == lines + [NewLine(p)]
  {
    var r := AddOrIncrement(lines, p);
    var f := FindIndex(lines, p.id);
    if f.Some? {
      var k := f.value;
      assert r == lines[k := lines[k].(quantity := lines[k].quantity + 1)];
      assert BumpedAt(lines, r, k);
    }
  }

  /** r is lines with line k's quantity one higher and every other line untouched. */
  predicate BumpedAt(lines: seq<CartLine>, r: seq<CartLine>, k: nat)
  {
    |r| == |lines| && k < |lines|
    && r[k] == lines[k].(quantity := lines[k].quantity + 1)
    && forall j :: 0 <= j < |lines| && j != k ==> r[j] == lines[j]
  }

  /** Adding a product keeps at most one line per product id. */
  lemma AddOrIncrementKeepsUnique(lines: seq<CartLine>, p: Product)
    requires UniqueIds(lines)
    ensures UniqueIds(AddOrIncrement(lines, p))
  {
    var r := AddOrIncrement(lines, p);
    if FindIndex(lines, p.id).None? {
      forall i, j | 0 <= i < j < |r| ensures r[i].id != r[j].id {
        if j == |lines| {
          assert Ids(lines)[i] == lines[i].id;
        }
      }
    }
  }

  /**
   * The find-then-bump-or-push of handleAddToCart: the count rises by one
   * and ids stay unique.
   */
  method AddLine(lines: seq<CartLine>, p: Product) returns (r: seq<CartLine>)
    ensures r == AddOrIncrement(lines, p)
    ensures Count(r) == Count(lines) + 1
    ensures UniqueIds(lines) ==> UniqueIds(r)
  {
    var found := FindIndex(lines, p.id);
    if found.Some? {
      var k := found.value;
      r := SetQuantity(lines, k, lines[k].quantity + 1);
    } else {
      r := lines + [NewLine(p)];
    }
    assert r == AddOrIncrement(lines, p);
    AddOrIncrementCount(lines, p);
    if UniqueIds(lines) {
      AddOrIncrementKeepsUnique(lines, p);
    }
  }

  /** Line k with its quantity replaced by q (the in-place 'cartItem.quantity = q'). */
  function SetQuantity(lines: seq<CartLine>, k: nat, q: int): (r: seq<CartLine>)
    requires k < |lines|
    ensures |r| == |lines| && r[k].quantity == q && r[k].id == lines[k].id
    ensures r[k] == lines[k].(quantity := q)
    ensures forall j :: 0 <= j < |lines| && j != k ==> r[j] == lines[j]
  {
    lines[k := lines[k].(quantity := q)]
  }

  /** Setting line k's quantity keeps at most one line per product id. */
  lemma SetQuantityKeepsUnique(lines: seq<CartLine>, k: nat, q: int)
    requires k < |lines|
    ensures UniqueIds(lines) ==> UniqueIds(SetQuantity(lines, k, q))
  {
  }
}
