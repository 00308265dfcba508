/**
 * Pushing the browser cart to the signed-in shopper's server cart, as the
 * checkout page does twice: when it loads (loadCartFromStorage) and when
 * the order is placed (placeOrder). Both walk the local lines against a
 * snapshot of the server cart, updating lines whose quantity differs and
 * adding lines the server lacks, then walk the snapshot removing entries
 * the browser lacks. They differ in how failures are handled.
 *
 * The server's answers are an input: one CallOutcome per call, in the order
 * the calls are made (calls beyond the end of the list succeed).
 */
module CartSync {
  import opened Wrappers
  import opened Catalog
  import opened CartLines
  import opened ApiService

  /** The server-side cart as far as the sync can tell: per product, its entry id and quantity. */
  datatype RemoteEntry = RemoteEntry(entryId: EntryId, quantity: int)
  type RemoteCart = map<ProductId, RemoteEntry>

  /** The cart calls the sync issues. Update and remove name the entry; the product is the one the snapshot pairs with it. */
  datatype RemoteCall =
    | UpdateCall(entryId: EntryId, productId: ProductId, quantity: int)
    | AddCall(productId: ProductId, quantity: int)
    | RemoveCall(entryId: EntryId, productId: ProductId)

  /**
   * The fate of one call: a 2xx answer (carrying the id a new entry gets),
   * a refusal (a non-2xx answer that removeFromCart reports as false and
   * the other calls turn into an error without '404' in its message), or
   * a thrown error whose message may mention '404'.
   */
  datatype CallOutcome = Done(newEntryId: EntryId) | Refused | Thrown(mentions404: bool)

  /** OnLoad: any error abandons the whole sync. OnCheckout: a '404' skips that line, other item errors skip the rest, removal errors are ignored. */
  datatype SyncMode = OnLoad | OnCheckout

  datatype SyncState = SyncState(remote: RemoteCart, calls: seq<RemoteCall>, skipped: seq<ProductId>, aborted: bool)

  function Start(remote: RemoteCart): SyncState
  {
    SyncState(remote, [], [], false)
  }

  function OutcomeAt(outcomes: seq<CallOutcome>, k: nat): CallOutcome
  {
    if k < |outcomes| then outcomes[k] else Done(0)
  }

  /** The effect of a successful call on the server cart; an add merges into an existing entry as the server does. */
  function Apply(remote: RemoteCart, c: RemoteCall, newEntryId: EntryId): RemoteCart
  {
    match c
    case UpdateCall(_, p, q) => if p in remote then remote[p := remote[p].(quantity := q)] else remote
    case AddCall(p, q) =>
      if p in remote then remote[p := remote[p].(quantity := remote[p].quantity + q)]
      else remote[p := RemoteEntry(newEntryId, q)]
    case RemoveCall(_, p) => remote - {p}
  }

  /** The product ids of the snapshot, in order. */
  function SnapIds(snap: seq<RemoteCartItem>): (r: seq<ProductId>)
    ensures |r| == |snap|
    ensures forall i :: 0 <= i < |snap| ==> r[i] == snap[i].product.id
  {
    seq(|snap|, i requires 0 <= i < |snap| => snap[i].product.id)
  }

  /** The first snapshot entry for a product (backendCart.find). */
  function SnapshotFind(snap: seq<RemoteCartItem>, p: ProductId): (r: Option<nat>)
    ensures r.Some? ==> r.value < |snap| && snap[r.value].product.id == p
    ensures r.Some? ==> forall j :: 0 <= j < r.value ==> snap[j].product.id != p
    ensures r.None? <==> p !in SnapIds(snap)
  {
    if snap == [] then None
    else if snap[0].product.id == p then Some(0)
    else
      match SnapshotFind(snap[1..], p)
      case None => None
      case Some(k) => Some(k + 1)
  }

  /** The call a local line needs: an update when the snapshot holds the product with another quantity, an add when it lacks it. */
  function CallFor(l: CartLine, snap: seq<RemoteCartItem>): Option<RemoteCall>
  {
    match SnapshotFind(snap, l.id)
    case Some(k) => if snap[k].quantity != l.quantity then Some(UpdateCall(snap[k].id, l.id, l.quantity)) else None
    case None => Some(AddCall(l.id, l.quantity))
  }

  /** One turn of the add/update loop. */
  function ItemStep(mode: SyncMode, snap: seq<RemoteCartItem>, outcomes: seq<CallOutcome>, st: SyncState, l: CartLine): SyncState
  {
    if st.aborted then st
    else match CallFor(l, snap)
      case None => st
      case Some(c) =>
        var st1 := st.(calls := st.calls + [c]);
        match OutcomeAt(outcomes, |st.calls|)
        case Done(e) => st1.(remote := Apply(st.remote, c, e))
        case Refused => st1.(aborted := true)
        case Thrown(m404) =>
          if mode == OnCheckout && m404 then st1.(skipped := st.skipped + [l.id]) else st1.(aborted := true)
  }

  /** The add/update loop over the local lines, in order. */
  function ItemsPass(mode: SyncMode, lines: seq<CartLine>, snap: seq<RemoteCartItem>, outcomes: seq<CallOutcome>, st0: SyncState): SyncState
    decreases |lines|
  {
    if lines == [] then st0
    else ItemStep(mode, snap, outcomes, ItemsPass(mode, lines[..|lines| - 1], snap, outcomes, st0), lines[|lines| - 1])
  }

  /** One turn of the removal loop. */
  function RemoveStep(mode: SyncMode, lines: seq<CartLine>, outcomes: seq<CallOutcome>, st: SyncState, e: RemoteCartItem): SyncState
  {
    if st.aborted || e.product.id in Ids(lines) then st
    else
      var st1 := st.(calls := st.calls + [RemoveCall(e.id, e.product.id)]);
      match OutcomeAt(outcomes, |st.calls|)
      case Done(_) => st1.(remote := st.remote - {e.product.id})
      case Refused => st1
      case Thrown(_) => if mode == OnLoad then st1.(aborted := true) else st1
  }

  /** The removal loop over the snapshot, in order. */
  function RemovalPass(mode: SyncMode, lines: seq<CartLine>, snap: seq<RemoteCartItem>, outcomes: seq<CallOutcome>, st0: SyncState): SyncState
    decreases |snap|
  {
    if snap == [] then st0
    else RemoveStep(mode, lines, outcomes, RemovalPass(mode, lines, snap[..|snap| - 1], outcomes, st0), snap[|snap| - 1])
  }

  function Passes(mode: SyncMode, lines: seq<CartLine>, snap: seq<RemoteCartItem>, remote: RemoteCart, outcomes: seq<CallOutcome>): SyncState
  {
    var st := ItemsPass(mode, lines, snap, outcomes, Start(remote));
    if st.aborted then st else RemovalPass(mode, lines, snap, outcomes, st)
  }

  /**
   * The whole sync. fetched is the answer to the initial cart fetch (None
   * when it throws): on load that abandons the sync, at checkout the server
   * cart is taken to be empty.
   */
  function Sync(mode: SyncMode, lines: seq<CartLine>, fetched: Option<seq<RemoteCartItem>>, remote: RemoteCart, outcomes: seq<CallOutcome>): SyncState
  {
    match fetched
    case None => if mode == OnLoad then Start(remote).(aborted := true) else Passes(mode, lines, [], remote, outcomes)
    case Some(snap) => Passes(mode, lines, snap, remote, outcomes)
  }

  // ---------------------------------------------------------------------
  // Aborting ends a pass: later turns change nothing.

  lemma {:induction false} ItemsPassAbortedStays(mode: SyncMode, lines: seq<CartLine>, snap: seq<RemoteCartItem>, outcomes: seq<CallOutcome>, st0: SyncState, i: nat)
    requires i <= |lines| && ItemsPass(mode, lines[..i], snap, outcomes, st0).aborted
    ensures ItemsPass(mode, lines, snap, outcomes, st0) == ItemsPass(mode, lines[..i], snap, outcomes, st0)
    decreases |lines|
  {
    if i < |lines| {
      var pre := lines[..|lines| - 1];
      assert pre[..i] == lines[..i];
      ItemsPassAbortedStays(mode, pre, snap, outcomes, st0, i);
    } else {
      assert lines[..i] == lines;
    }
  }

  lemma {:induction false} RemovalPassAbortedStays(mode: SyncMode, lines: seq<CartLine>, snap: seq<RemoteCartItem>, outcomes: seq<CallOutcome>, st0: SyncState, i: nat)
    requires i <= |snap| && RemovalPass(mode, lines, snap[..i], outcomes, st0).aborted
    ensures RemovalPass(mode, lines, snap, outcomes, st0) == RemovalPass(mode, lines, snap[..i], outcomes, st0)
    decreases |snap|
  {
    if i < |snap| {
      var pre := snap[..|snap| - 1];
      assert pre[..i] == snap[..i];
      RemovalPassAbortedStays(mode, lines, pre, outcomes, st0, i);
    } else {
      assert snap[..i] == snap;
    }
  }

  // ---------------------------------------------------------------------
  // Every call the sync issues is one the carts call for.

  /** Some local line has this product id and this quantity. */
  predicate HasLine(lines: seq<CartLine>, p: ProductId, q: int)
  {
    exists j :: 0 <= j < |lines| && lines[j].id == p && lines[j].quantity == q
  }

  /**
   * An update targets the snapshot's entry for a local product whose
   * quantity differs and sends the local quantity; an add sends a local
   * line the snapshot lacks; a remove targets a snapshot entry whose
   * product is not in the browser cart.
   */
  predicate Justified(c: RemoteCall, lines: seq<CartLine>, snap: seq<RemoteCartItem>)
  {
    match c
    case UpdateCall(e, p, q) =>
      HasLine(lines, p, q) && SnapshotFind(snap, p).Some?
      && snap[SnapshotFind(snap, p).value].id == e && snap[SnapshotFind(snap, p).value].quantity != q
    case AddCall(p, q) => HasLine(lines, p, q) && p !in SnapIds(snap)
    case RemoveCall(e, p) => p !in Ids(lines) && exists i :: 0 <= i < |snap| && snap[i].id == e && snap[i].product.id == p
  }

  /** Every call of the list is justified. */
  predicate AllJustified(calls: seq<RemoteCall>, lines: seq<CartLine>, snap: seq<RemoteCartItem>)
  {
    forall k :: 0 <= k < |calls| ==> Justified(calls[k], lines, snap)
  }

  predicate NoRemovals(calls: seq<RemoteCall>)
  {
    forall k :: 0 <= k < |calls| ==> !calls[k].RemoveCall?
  }

  /** A call justified by a prefix of the lines is justified by all of them. */
  lemma JustifiedLift(c: RemoteCall, pre: seq<CartLine>, lines: seq<CartLine>, snap: seq<RemoteCartItem>)
    requires |pre| <= |lines| && pre == lines[..|pre|]
    requires Justified(c, pre, snap) && !c.RemoveCall?
    ensures Justified(c, lines, snap)
  {
    var j :| 0 <= j < |pre| && pre[j].id == c.productId && pre[j].quantity == c.quantity;
    assert lines[j] == pre[j];
  }

  /** The call a local line needs is justified. */
  lemma CallForJustified(j: nat, lines: seq<CartLine>, snap: seq<RemoteCartItem>)
    requires j < |lines|
    ensures CallFor(lines[j], snap).Some? ==>
      Justified(CallFor(lines[j], snap).value, lines, snap) && !CallFor(lines[j], snap).value.RemoveCall?
  {
    assert HasLine(lines, lines[j].id, lines[j].quantity);
  }

  /** The add/update loop issues only justified updates and adds. */
  lemma {:induction false} ItemsPassJustified(mode: SyncMode, lines: seq<CartLine>, snap: seq<RemoteCartItem>, outcomes: seq<CallOutcome>, remote: RemoteCart)
    ensures AllJustified(ItemsPass(mode, lines, snap, outcomes, Start(remote)).calls, lines, snap)
    ensures NoRemovals(ItemsPass(mode, lines, snap, outcomes, Start(remote)).calls)
    decreases |lines|
  {
    if lines != [] {
      var pre := lines[..|lines| - 1];
      ItemsPassJustified(mode, pre, snap, outcomes, remote);
      var st := ItemsPass(mode, pre, snap, outcomes, Start(remote));
      forall k | 0 <= k < |st.calls| ensures Justified(st.calls[k], lines, snap) {
        JustifiedLift(st.calls[k], pre, lines, snap);
      }
      CallForJustified(|lines| - 1, lines, snap);
    }
  }

  /** One turn of the removal loop adds no call, or one removal of this snapshot entry for a product the browser lacks. */
  lemma RemoveStepCalls(mode: SyncMode, lines: seq<CartLine>, outcomes: seq<CallOutcome>, st: SyncState, e: RemoteCartItem)
    ensures RemoveStep(mode, lines, outcomes, st, e).calls == st.calls
         || (RemoveStep(mode, lines, outcomes, st, e).calls == st.calls + [RemoveCall(e.id, e.product.id)]
             && e.product.id !in Ids(lines))
  {
  }

  /** The removal loop only appends calls, and each is a justified removal. */
  lemma {:induction false} RemovalPassJustified(mode: SyncMode, lines: seq<CartLine>, snap: seq<RemoteCartItem>, outcomes: seq<CallOutcome>, st0: SyncState)
    ensures |RemovalPass(mode, lines, snap, outcomes, st0).calls| >= |st0.calls|
    ensures RemovalPass(mode, lines, snap, outcomes, st0).calls[..|st0.calls|] == st0.calls
    ensures AllJustified(RemovalPass(mode, lines, snap, outcomes, st0).calls[|st0.calls|..], lines, snap)
    decreases |snap|
  {
    if snap != [] {
      var pre := snap[..|snap| - 1];
      var last := snap[|snap| - 1];
      RemovalPassJustified(mode, lines, pre, outcomes, st0);
      var st := RemovalPass(mode, lines, pre, outcomes, st0);
      var tail := st.calls[|st0.calls|..];
      RemovalPassOnlyRemoves(mode, lines, pre, outcomes, st0);
      forall k | 0 <= k < |tail| ensures Justified(tail[k], lines, snap) {
        var c := tail[k];
        assert Justified(c, lines, pre);
        assert c == st.calls[|st0.calls| + k];
        JustifiedInLongerSnapshot(c, lines, pre, snap);
      }
      RemoveStepCalls(mode, lines, outcomes, st, last);
      var st2 := RemovalPass(mode, lines, snap, outcomes, st0);
      if st2.calls != st.calls {
        var c := RemoveCall(last.id, last.product.id);
        assert Justified(c, lines, snap) by {
          assert snap[|snap| - 1] == last;
        }
        assert st2.calls[..|st0.calls|] == st.calls[..|st0.calls|];
        assert st2.calls[|st0.calls|..] == tail + [c];
      }
    }
  }

  /** A removal justified by a prefix of the snapshot is justified by the whole of it. */
  lemma JustifiedInLongerSnapshot(c: RemoteCall, lines: seq<CartLine>, pre: seq<RemoteCartItem>, snap: seq<RemoteCartItem>)
    requires |pre| <= |snap| && pre == snap[..|pre|]
    requires Justified(c, lines, pre) && c.RemoveCall?
    ensures Justified(c, lines, snap)
  {
    var i :| 0 <= i < |pre| && pre[i].id == c.entryId && pre[i].product.id == c.productId;
    assert snap[i] == pre[i];
  }

  /** The removal loop appends only removals. */
  lemma {:induction false} RemovalPassOnlyRemoves(mode: SyncMode, lines: seq<CartLine>, snap: seq<RemoteCartItem>, outcomes: seq<CallOutcome>, st0: SyncState)
    ensures |RemovalPass(mode, lines, snap, outcomes, st0).calls| >= |st0.calls|
    ensures forall k :: |st0.calls| <= k < |RemovalPass(mode, lines, snap, outcomes, st0).calls| ==>
      RemovalPass(mode, lines, snap, outcomes, st0).calls[k].RemoveCall?
    decreases |snap|
  {
    if snap != [] {
      RemovalPassOnlyRemoves(mode, lines, snap[..|snap| - 1], outcomes, st0);
    }
  }

  /** Every call of a sync is justified by the carts; calls are never made up. */
  lemma SyncCallsJustified(mode: SyncMode, lines: seq<CartLine>, fetched: Option<seq<RemoteCartItem>>, remote: RemoteCart, outcomes: seq<CallOutcome>)
    ensures AllJustified(Sync(mode, lines, fetched, remote, outcomes).calls, lines, fetched.GetOr([]))
  {
    var snap := fetched.GetOr([]);
    if !(fetched.None? && mode == OnLoad) {
      ItemsPassJustified(mode, lines, snap, outcomes, remote);
      var st := ItemsPass(mode, lines, snap, outcomes, Start(remote));
      if !st.aborted {
        RemovalPassJustified(mode, lines, snap, outcomes, st);
        var st2 := RemovalPass(mode, lines, snap, outcomes, st);
        forall k | 0 <= k < |st2.calls| ensures Justified(st2.calls[k], lines, snap) {
          if k < |st.calls| {
            assert st2.calls[..|st.calls|][k] == st.calls[k];
          } else {
            assert st2.calls[|st.calls|..][k - |st.calls|] == st2.calls[k];
          }
        }
      }
    }
  }

  // ---------------------------------------------------------------------
  // When every call succeeds, the server cart ends up mirroring the browser cart.

  /** The snapshot is an exact listing of the server cart. */
  predicate Lists(snap: seq<RemoteCartItem>, remote: RemoteCart)
  {
    (forall i :: 0 <= i < |snap| ==>
      snap[i].product.id in remote && remote[snap[i].product.id] == RemoteEntry(snap[i].id, snap[i].quantity))
    && (forall p :: p in remote ==> p in SnapIds(snap))
  }

  predicate AllDone(outcomes: seq<CallOutcome>)
  {
    forall k :: 0 <= k < |outcomes| ==> outcomes[k].Done?
  }

  /** The server cart holds exactly the browser's products, each with the browser's quantity. */
  ghost predicate Mirrors(remote: RemoteCart, lines: seq<CartLine>)
  {
    (forall p :: p in remote <==> p in Ids(lines))
    && (forall j :: 0 <= j < |lines| ==> lines[j].id in remote && remote[lines[j].id].quantity == lines[j].quantity)
  }

  lemma PrefixKeepsUnique(lines: seq<CartLine>)
    requires UniqueIds(lines) && lines != []
    ensures UniqueIds(lines[..|lines| - 1])
    ensures lines[|lines| - 1].id !in Ids(lines[..|lines| - 1])
    ensures Ids(lines) == Ids(lines[..|lines| - 1]) + [lines[|lines| - 1].id]
  {
    var pre := lines[..|lines| - 1];
    forall i | 0 <= i < |pre| ensures Ids(pre)[i] != lines[|lines| - 1].id {
      assert pre[i] == lines[i];
    }
  }

  /** With every call succeeding, one turn of the add/update loop gives the line's product the local quantity and touches nothing else. */
  lemma ItemStepConverges(mode: SyncMode, snap: seq<RemoteCartItem>, remote: RemoteCart, outcomes: seq<CallOutcome>, st: SyncState, l: CartLine)
    requires Lists(snap, remote) && AllDone(outcomes) && !st.aborted
    requires l.id in st.remote <==> l.id in remote
    requires l.id in st.remote ==> st.remote[l.id] == remote[l.id]
    ensures !ItemStep(mode, snap, outcomes, st, l).aborted
    ensures ItemStep(mode, snap, outcomes, st, l).remote.Keys == st.remote.Keys + {l.id}
    ensures ItemStep(mode, snap, outcomes, st, l).remote[l.id].quantity == l.quantity
    ensures forall p :: p in st.remote && p != l.id ==> ItemStep(mode, snap, outcomes, st, l).remote[p] == st.remote[p]
  {
    assert OutcomeAt(outcomes, |st.calls|).Done?;
    match SnapshotFind(snap, l.id) {
      case Some(k) =>
        assert st.remote[l.id] == RemoteEntry(snap[k].id, snap[k].quantity);
      case None =>
        assert l.id !in remote;
    }
  }

  /** The induction step of ItemsPassConverges, on the server carts before and after the last line. */
  lemma ConvergedStep(lines: seq<CartLine>, remote: RemoteCart, before: RemoteCart, after: RemoteCart)
    requires UniqueIds(lines) && lines != []
    requires var pre := lines[..|lines| - 1];
      (forall p :: p in before <==> p in remote || p in Ids(pre))
      && (forall j :: 0 <= j < |pre| ==> pre[j].id in before && before[pre[j].id].quantity == pre[j].quantity)
      && (forall p :: p in remote && p !in Ids(pre) ==> before[p] == remote[p])
    requires var l := lines[|lines| - 1];
      after.Keys == before.Keys + {l.id} && after[l.id].quantity == l.quantity
      && (forall p :: p in before && p != l.id ==> after[p] == before[p])
    ensures forall p :: p in after <==> p in remote || p in Ids(lines)
    ensures forall j :: 0 <= j < |lines| ==> lines[j].id in after && after[lines[j].id].quantity == lines[j].quantity
    ensures forall p :: p in remote && p !in Ids(lines) ==> after[p] == remote[p]
  {
    var n := |lines| - 1;
    var pre := lines[..n];
    var l := lines[n];
    PrefixKeepsUnique(lines);
    forall j | 0 <= j < |lines| ensures lines[j].id in after && after[lines[j].id].quantity == lines[j].quantity {
      if j < n {
        assert lines[j] == pre[j];
        assert Ids(lines)[j] == lines[j].id;
      }
    }
  }

  lemma {:induction false} ItemsPassConverges(mode: SyncMode, lines: seq<CartLine>, snap: seq<RemoteCartItem>, remote: RemoteCart, outcomes: seq<CallOutcome>)
    requires Lists(snap, remote) && UniqueIds(lines) && AllDone(outcomes)
    ensures !ItemsPass(mode, lines, snap, outcomes, Start(remote)).aborted
    ensures forall p :: p in ItemsPass(mode, lines, snap, outcomes, Start(remote)).remote <==> p in remote || p in Ids(lines)
    ensures forall j :: 0 <= j < |lines| ==>
      lines[j].id in ItemsPass(mode, lines, snap, outcomes, Start(remote)).remote
      && ItemsPass(mode, lines, snap, outcomes, Start(remote)).remote[lines[j].id].quantity == lines[j].quantity
    ensures forall p :: p in remote && p !in Ids(lines) ==> ItemsPass(mode, lines, snap, outcomes, Start(remote)).remote[p] == remote[p]
    decreases |lines|
  {
    if lines != [] {
      var n := |lines| - 1;
      var pre := lines[..n];
      var l := lines[n];
      PrefixKeepsUnique(lines);
      ItemsPassConverges(mode, pre, snap, remote, outcomes);
      var st := ItemsPass(mode, pre, snap, outcomes, Start(remote));
      var st2 := ItemsPass(mode, lines, snap, outcomes, Start(remote));
      assert st2 == ItemStep(mode, snap, outcomes, st, l);
      ItemStepConverges(mode, snap, remote, outcomes, st, l);
      ConvergedStep(lines, remote, st.remote, st2.remote);
    }
  }

  lemma {:induction false} RemovalPassConverges(mode: SyncMode, lines: seq<CartLine>, snap: seq<RemoteCartItem>, outcomes: seq<CallOutcome>, st0: SyncState)
    requires AllDone(outcomes) && !st0.aborted
    ensures !RemovalPass(mode, lines, snap, outcomes, st0).aborted
    ensures forall p :: p in RemovalPass(mode, lines, snap, outcomes, st0).remote <==>
      p in st0.remote && (p in Ids(lines) || p !in SnapIds(snap))
    ensures forall p :: p in RemovalPass(mode, lines, snap, outcomes, st0).remote ==>
      RemovalPass(mode, lines, snap, outcomes, st0).remote[p] == st0.remote[p]
    decreases |snap|
  {
    if snap != [] {
      var pre := snap[..|snap| - 1];
      RemovalPassConverges(mode, lines, pre, outcomes, st0);
      var st := RemovalPass(mode, lines, pre, outcomes, st0);
      assert OutcomeAt(outcomes, |st.calls|).Done?;
      assert SnapIds(snap) == SnapIds(pre) + [snap[|snap| - 1].product.id];
    }
  }

  /** With a faithful snapshot, unique local ids and every call succeeding, the sync leaves the server cart mirroring the browser cart. */
  lemma SyncConverges(mode: SyncMode, lines: seq<CartLine>, snap: seq<RemoteCartItem>, remote: RemoteCart, outcomes: seq<CallOutcome>)
    requires Lists(snap, remote) && UniqueIds(lines) && AllDone(outcomes)
    ensures !Sync(mode, lines, Some(snap), remote, outcomes).aborted
    ensures Mirrors(Sync(mode, lines, Some(snap), remote, outcomes).remote, lines)
  {
    ItemsPassConverges(mode, lines, snap, remote, outcomes);
    var st := ItemsPass(mode, lines, snap, outcomes, Start(remote));
    RemovalPassConverges(mode, lines, snap, outcomes, st);
    var r := Sync(mode, lines, Some(snap), remote, outcomes).remote;
    forall j | 0 <= j < |lines| ensures lines[j].id in r && r[lines[j].id].quantity == lines[j].quantity {
      assert Ids(lines)[j] == lines[j].id;
    }
  }

  /** A cart already mirrored on the server makes no calls, whatever the mode and the outcomes. */
  lemma {:induction false} ItemsPassQuiet(mode: SyncMode, lines: seq<CartLine>, all: seq<CartLine>, snap: seq<RemoteCartItem>, remote: RemoteCart, outcomes: seq<CallOutcome>)
    requires Lists(snap, remote) && Mirrors(remote, all)
    requires forall j :: 0 <= j < |lines| ==> lines[j] in all
    ensures ItemsPass(mode, lines, snap, outcomes, Start(remote)) == Start(remote)
    decreases |lines|
  {
    if lines != [] {
      var pre := lines[..|lines| - 1];
      forall j | 0 <= j < |pre| ensures pre[j] in all {
        assert pre[j] == lines[j];
      }
      ItemsPassQuiet(mode, pre, all, snap, remote, outcomes);
      var l := lines[|lines| - 1];
      assert l in all;
      var j :| 0 <= j < |all| && all[j] == l;
      assert l.id in remote;
    }
  }

  lemma {:induction false} RemovalPassQuiet(mode: SyncMode, lines: seq<CartLine>, snap: seq<RemoteCartItem>, part: seq<RemoteCartItem>, remote: RemoteCart, outcomes: seq<CallOutcome>)
    requires Lists(snap, remote) && Mirrors(remote, lines)
    requires forall i :: 0 <= i < |part| ==> part[i] in snap
    ensures RemovalPass(mode, lines, part, outcomes, Start(remote)) == Start(remote)
    decreases |part|
  {
    if part != [] {
      var pre := part[..|part| - 1];
      forall i | 0 <= i < |pre| ensures pre[i] in snap {
        assert pre[i] == part[i];
      }
      RemovalPassQuiet(mode, lines, snap, pre, remote, outcomes);
      var e := part[|part| - 1];
      assert e in snap;
    }
  }

  lemma InSyncIsQuiet(mode: SyncMode, lines: seq<CartLine>, snap: seq<RemoteCartItem>, remote: RemoteCart, outcomes: seq<CallOutcome>)
    requires Lists(snap, remote) && Mirrors(remote, lines)
    ensures Sync(mode, lines, Some(snap), remote, outcomes) == Start(remote)
  {
    ItemsPassQuiet(mode, lines, lines, snap, remote, outcomes);
    RemovalPassQuiet(mode, lines, snap, snap, remote, outcomes);
  }

  /** Syncing twice is syncing once: after a fully successful sync, a second one against a faithful snapshot makes no calls. */
  lemma SyncIdempotent(mode: SyncMode, mode2: SyncMode, lines: seq<CartLine>, snap: seq<RemoteCartItem>, snap2: seq<RemoteCartItem>,
                       remote: RemoteCart, outcomes: seq<CallOutcome>, outcomes2: seq<CallOutcome>)
    requires Lists(snap, remote) && UniqueIds(lines) && AllDone(outcomes)
    requires Lists(snap2, Sync(mode, lines, Some(snap), remote, outcomes).remote)
    ensures Sync(mode2, lines, Some(snap2), Sync(mode, lines, Some(snap), remote, outcomes).remote, outcomes2).calls == []
    ensures Sync(mode2, lines, Some(snap2), Sync(mode, lines, Some(snap), remote, outcomes).remote, outcomes2).remote
         == Sync(mode, lines, Some(snap), remote, outcomes).remote
  {
    SyncConverges(mode, lines, snap, remote, outcomes);
    InSyncIsQuiet(mode2, lines, snap2, Sync(mode, lines, Some(snap), remote, outcomes).remote, outcomes2);
  }

  // ---------------------------------------------------------------------
  // A failed cart fetch at checkout: everything local is added on top.

  /** Against an empty snapshot, one successful turn adds the line on top of what the server holds. */
  lemma ItemStepOnTop(mode: SyncMode, outcomes: seq<CallOutcome>, st: SyncState, l: CartLine)
    requires AllDone(outcomes) && !st.aborted
    ensures !ItemStep(mode, [], outcomes, st, l).aborted
    ensures ItemStep(mode, [], outcomes, st, l).remote.Keys == st.remote.Keys + {l.id}
    ensures ItemStep(mode, [], outcomes, st, l).remote[l.id].quantity
         == (if l.id in st.remote then st.remote[l.id].quantity + l.quantity else l.quantity)
    ensures forall p :: p in st.remote && p != l.id ==> ItemStep(mode, [], outcomes, st, l).remote[p] == st.remote[p]
  {
    assert OutcomeAt(outcomes, |st.calls|).Done?;
    assert SnapshotFind([], l.id).None?;
  }

  /** The induction step of ItemsPassAddsOnTop, on the server carts before and after the last line. */
  lemma OnTopStep(lines: seq<CartLine>, remote: RemoteCart, before: RemoteCart, after: RemoteCart)
    requires UniqueIds(lines) && lines != []
    requires var pre := lines[..|lines| - 1];
      (forall p :: p in before <==> p in remote || p in Ids(pre))
      && (forall j :: 0 <= j < |pre| ==>
            pre[j].id in before
            && before[pre[j].id].quantity == (if pre[j].id in remote then remote[pre[j].id].quantity + pre[j].quantity else pre[j].quantity))
      && (forall p :: p in remote && p !in Ids(pre) ==> before[p] == remote[p])
    requires var l := lines[|lines| - 1];
      after.Keys == before.Keys + {l.id}
      && after[l.id].quantity == (if l.id in before then before[l.id].quantity + l.quantity else l.quantity)
      && (forall p :: p in before && p != l.id ==> after[p] == before[p])
    ensures forall p :: p in after <==> p in remote || p in Ids(lines)
    ensures forall j :: 0 <= j < |lines| ==>
              lines[j].id in after
              && after[lines[j].id].quantity == (if lines[j].id in remote then remote[lines[j].id].quantity + lines[j].quantity else lines[j].quantity)
    ensures forall p :: p in remote && p !in Ids(lines) ==> after[p] == remote[p]
  {
    var n := |lines| - 1;
    var pre := lines[..n];
    var l := lines[n];
    PrefixKeepsUnique(lines);
    forall j | 0 <= j < |lines| ensures lines[j].id in after
      && after[lines[j].id].quantity == (if lines[j].id in remote then remote[lines[j].id].quantity + lines[j].quantity else lines[j].quantity)
    {
      if j < n {
        assert lines[j] == pre[j];
        assert Ids(lines)[j] == lines[j].id;
      }
    }
  }

  lemma {:induction false} ItemsPassAddsOnTop(mode: SyncMode, lines: seq<CartLine>, remote: RemoteCart, outcomes: seq<CallOutcome>)
    requires UniqueIds(lines) && AllDone(outcomes)
    ensures !ItemsPass(mode, lines, [], outcomes, Start(remote)).aborted
    ensures forall p :: p in ItemsPass(mode, lines, [], outcomes, Start(remote)).remote <==> p in remote || p in Ids(lines)
    ensures forall j :: 0 <= j < |lines| ==>
      lines[j].id in ItemsPass(mode, lines, [], outcomes, Start(remote)).remote
      && ItemsPass(mode, lines, [], outcomes, Start(remote)).remote[lines[j].id].quantity
         == (if lines[j].id in remote then remote[lines[j].id].quantity + lines[j].quantity else lines[j].quantity)
    ensures forall p :: p in remote && p !in Ids(lines) ==> ItemsPass(mode, lines, [], outcomes, Start(remote)).remote[p] == remote[p]
    decreases |lines|
  {
    if lines != [] {
      var n := |lines| - 1;
      var pre := lines[..n];
      var l := lines[n];
      PrefixKeepsUnique(lines);
      ItemsPassAddsOnTop(mode, pre, remote, outcomes);
      var st := ItemsPass(mode, pre, [], outcomes, Start(remote));
      var st2 := ItemsPass(mode, lines, [], outcomes, Start(remote));
      assert st2 == ItemStep(mode, [], outcomes, st, l);
      ItemStepOnTop(mode, outcomes, st, l);
      OnTopStep(lines, remote, st.remote, st2.remote);
    }
  }

  /**
   * At checkout a failed cart fetch is read as an empty server cart, so
   * every local line is added and the server adds it to what it already
   * holds: quantities of products already there are summed, nothing is removed.
   */
  lemma FetchFailureAddsOnTop(lines: seq<CartLine>, remote: RemoteCart, outcomes: seq<CallOutcome>)
    requires UniqueIds(lines) && AllDone(outcomes)
    ensures !Sync(OnCheckout, lines, None, remote, outcomes).aborted
    ensures forall p :: p in Sync(OnCheckout, lines, None, remote, outcomes).remote <==> p in remote || p in Ids(lines)
    ensures forall j :: 0 <= j < |lines| ==>
      lines[j].id in Sync(OnCheckout, lines, None, remote, outcomes).remote
      && Sync(OnCheckout, lines, None, remote, outcomes).remote[lines[j].id].quantity
         == (if lines[j].id in remote then remote[lines[j].id].quantity + lines[j].quantity else lines[j].quantity)
    ensures forall p :: p in remote && p !in Ids(lines) ==> Sync(OnCheckout, lines, None, remote, outcomes).remote[p] == remote[p]
  {
    ItemsPassAddsOnTop(OnCheckout, lines, remote, outcomes);
  }

  /** On load a failed cart fetch abandons the sync before any call. */
  lemma LoadFetchFailureIsQuiet(lines: seq<CartLine>, remote: RemoteCart, outcomes: seq<CallOutcome>)
    ensures Sync(OnLoad, lines, None, remote, outcomes).calls == []
    ensures Sync(OnLoad, lines, None, remote, outcomes).remote == remote
    ensures Sync(OnLoad, lines, None, remote, outcomes).aborted
  {
  }

  // ---------------------------------------------------------------------
  // Failure handling at checkout.

  /** At checkout the removal loop never abandons the sync and removes every entry the browser lacks. */
  lemma {:induction false} CheckoutRemovalCovers(lines: seq<CartLine>, snap: seq<RemoteCartItem>, outcomes: seq<CallOutcome>, st0: SyncState)
    requires !st0.aborted
    ensures !RemovalPass(OnCheckout, lines, snap, outcomes, st0).aborted
    ensures forall c :: c in st0.calls ==> c in RemovalPass(OnCheckout, lines, snap, outcomes, st0).calls
    ensures forall i :: 0 <= i < |snap| && snap[i].product.id !in Ids(lines) ==>
      RemoveCall(snap[i].id, snap[i].product.id) in RemovalPass(OnCheckout, lines, snap, outcomes, st0).calls
    decreases |snap|
  {
    if snap != [] {
      var pre := snap[..|snap| - 1];
      CheckoutRemovalCovers(lines, pre, outcomes, st0);
      forall i | 0 <= i < |pre| ensures snap[i] == pre[i] {
      }
    }
  }

  /** At checkout a failure in the add/update loop skips the removal loop entirely. */
  lemma CheckoutAbortSkipsRemoval(lines: seq<CartLine>, fetched: Option<seq<RemoteCartItem>>, remote: RemoteCart, outcomes: seq<CallOutcome>)
    ensures Sync(OnCheckout, lines, fetched, remote, outcomes).aborted ==> NoRemovals(Sync(OnCheckout, lines, fetched, remote, outcomes).calls)
  {
    var snap := fetched.GetOr([]);
    ItemsPassJustified(OnCheckout, lines, snap, outcomes, remote);
    var st := ItemsPass(OnCheckout, lines, snap, outcomes, Start(remote));
    if !st.aborted {
      CheckoutRemovalCovers(lines, snap, outcomes, st);
    }
  }

  /** At checkout, when the add/update loop completes, every snapshot entry whose product the browser lacks gets a remove call. */
  lemma CheckoutRemovesOrphans(lines: seq<CartLine>, snap: seq<RemoteCartItem>, remote: RemoteCart, outcomes: seq<CallOutcome>)
    requires !ItemsPass(OnCheckout, lines, snap, outcomes, Start(remote)).aborted
    ensures !Sync(OnCheckout, lines, Some(snap), remote, outcomes).aborted
    ensures forall i :: 0 <= i < |snap| && snap[i].product.id !in Ids(lines) ==>
      RemoveCall(snap[i].id, snap[i].product.id) in Sync(OnCheckout, lines, Some(snap), remote, outcomes).calls
  {
    CheckoutRemovalCovers(lines, snap, outcomes, ItemsPass(OnCheckout, lines, snap, outcomes, Start(remote)));
  }

  // ---------------------------------------------------------------------
  // The loops themselves.

  /** The sync as both pages run it: fetch, the add/update loop, then the removal loop. */
  method RunSync(mode: SyncMode, lines: seq<CartLine>, fetched: Option<seq<RemoteCartItem>>, remote: RemoteCart, outcomes: seq<CallOutcome>)
    returns (st: SyncState)
    ensures st == Sync(mode, lines, fetched, remote, outcomes)
  {
    var snap: seq<RemoteCartItem>;
    match fetched {
      case None =>
        if mode == OnLoad {
          return Start(remote).(aborted := true);
        }
        snap := [];
      case Some(s) =>
        snap := s;
    }
    st := ItemsLoop(mode, lines, snap, remote, outcomes);
    if !st.aborted {
      st := RemovalLoop(mode, lines, snap, outcomes, st);
    }
  }

  /** The add/update loop: an update or add per line that needs one, stopping at the first error that aborts. */
  method ItemsLoop(mode: SyncMode, lines: seq<CartLine>, snap: seq<RemoteCartItem>, remote: RemoteCart, outcomes: seq<CallOutcome>)
    returns (st: SyncState)
    ensures st == ItemsPass(mode, lines, snap, outcomes, Start(remote))
  {
    var server := remote;
    var calls: seq<RemoteCall> := [];
    var skipped: seq<ProductId> := [];
    var aborted := false;
    var i := 0;
    while i < |lines| && !aborted
      invariant 0 <= i <= |lines|
      invariant SyncState(server, calls, skipped, aborted) == ItemsPass(mode, lines[..i], snap, outcomes, Start(remote))
    {
      var l := lines[i];
      var call: Option<RemoteCall> := None;
      match SnapshotFind(snap, l.id) {
        case Some(k) =>
          if snap[k].quantity != l.quantity {
            call := Some(UpdateCall(snap[k].id, l.id, l.quantity));
          }
        case None =>
          call := Some(AddCall(l.id, l.quantity));
      }
      if call.Some? {
        var outcome := OutcomeAt(outcomes, |calls|);
        calls := calls + [call.value];
        match outcome {
          case Done(e) =>
            server := Apply(server, call.value, e);
          case Refused =>
            aborted := true;
          case Thrown(m404) =>
            if mode == OnCheckout && m404 {
              skipped := skipped + [l.id];
            } else {
              aborted := true;
            }
        }
      }
      assert lines[..i + 1][..i] == lines[..i];
      i := i + 1;
    }
    if aborted {
      ItemsPassAbortedStays(mode, lines, snap, outcomes, Start(remote), i);
    } else {
      assert lines[..i] == lines;
    }
    st := SyncState(server, calls, skipped, aborted);
  }

  /** The removal loop: a removal per snapshot entry whose product the browser lacks. */
  method RemovalLoop(mode: SyncMode, lines: seq<CartLine>, snap: seq<RemoteCartItem>, outcomes: seq<CallOutcome>, st0: SyncState)
    returns (st: SyncState)
    ensures st == RemovalPass(mode, lines, snap, outcomes, st0)
  {
    var server, calls, skipped, aborted := st0.remote, st0.calls, st0.skipped, st0.aborted;
    var j := 0;
    assert snap[..0] == [];
    while j < |snap| && !aborted
      invariant 0 <= j <= |snap|
      invariant SyncState(server, calls, skipped, aborted) == RemovalPass(mode, lines, snap[..j], outcomes, st0)
    {
      var e := snap[j];
      if e.product.id !in Ids(lines) {
        var outcome := OutcomeAt(outcomes, |calls|);
        calls := calls + [RemoveCall(e.id, e.product.id)];
        match outcome {
          case Done(_) =>
            server := server - {e.product.id};
          case Refused =>
          case Thrown(_) =>
            if mode == OnLoad {
              aborted := true;
            }
        }
      }
      assert snap[..j + 1][..j] == snap[..j];
      j := j + 1;
    }
    if aborted {
      RemovalPassAbortedStays(mode, lines, snap, outcomes, st0, j);
    } else {
      assert snap[..j] == snap;
    }
    st := SyncState(server, calls, skipped, aborted);
  }
}
