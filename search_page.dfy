/** The search results page (search.html): the query, its results, and the cart panel it edits. */
module SearchPage {
  import opened Wrappers
  import opened Catalog
  import opened CartLines
  import opened Strings

  const SearchFailed := "Failed to search products. Please try again later."

  class SearchPage {
    var searchQuery: string
    var searchResults: seq<Product>
    var allProducts: seq<Product>
    var loading: bool
    var error: Option<string>
    var cartItems: seq<CartLine>
    var cartCount: int
    /** What localStorage holds under 'shopvue_cart'; None when the key is absent. */
    var storedCart: Option<seq<CartLine>>
    var showCartSidebar: bool
    var showModal: bool
    var selectedProduct: Option<Product>

    /** Mounting takes the trimmed 'q' parameter and the saved cart. */
    constructor (query: string, saved: Option<seq<CartLine>>)
      ensures searchQuery == Trim(query) && searchResults == [] && allProducts == []
      ensures !loading && error.None?
      ensures cartItems == saved.GetOr([]) && cartCount == Count(cartItems) && storedCart == saved
      ensures !showCartSidebar && !showModal && selectedProduct.None?
    {
      searchQuery := Trim(query);
      searchResults := [];
      allProducts := [];
      loading := false;
      error := None;
      cartItems := saved.GetOr([]);
      cartCount := Count(saved.GetOr([]));
      storedCart := saved;
      showCartSidebar := false;
      showModal := false;
      selectedProduct := None;
    }

    /** The number shown beside the results. */
    function ResultsCount(): (r: nat)
      reads this
      ensures r == 0 <==> searchResults == []
    {
      |searchResults|
    }

    /** Writes the lines to storage and recounts the badge. */
    method SaveCartToStorage()
      modifies this`storedCart, this`cartCount
      ensures storedCart == Some(cartItems) && cartCount == Count(cartItems)
    {
      storedCart := Some(cartItems);
      cartCount := Count(cartItems);
    }

    /**
     * Runs the search. A blank query only clears the results. Otherwise the
     * catalogue is fetched once (catalogue), the query goes to the service
     * (outcome is None when the service throws), and a failure leaves an
     * error message and no results; loading is off again at the end.
     */
    method PerformSearch(catalogue: seq<Product>, outcome: Option<seq<Product>>)
      modifies this`searchResults, this`loading, this`error, this`allProducts
      ensures Trim(searchQuery) == "" ==>
        searchResults == [] && loading == old(loading) && error == old(error)
        && allProducts == old(allProducts)
      ensures Trim(searchQuery) != "" ==> !loading
      ensures Trim(searchQuery) != "" ==>
        allProducts == (if old(allProducts) == [] then catalogue else old(allProducts))
      ensures Trim(searchQuery) != "" && outcome.None? ==> searchResults == [] && error == Some(SearchFailed)
      ensures Trim(searchQuery) != "" && outcome.Some? ==> searchResults == outcome.value && error.None?
      ensures searchQuery == old(searchQuery) && cartItems == old(cartItems)
    {
      if searchQuery == "" || Trim(searchQuery) == "" {
        searchResults := [];
        return;
      }
      loading := true;
      error := None;
      if |allProducts| == 0 {
        allProducts := catalogue;
      }
      match outcome {
        case Some(found) =>
          searchResults := found;
        case None =>
          error := Some(SearchFailed);
          searchResults := [];
      }
      loading := false;
    }

    /** Bumps or appends the line, opens the cart panel, closes the dialog; the watcher then saves. */
    method HandleAddToCart(p: Product)
      modifies this`cartItems, this`cartCount, this`storedCart, this`showCartSidebar, this`showModal,
               this`selectedProduct
      ensures cartItems == AddOrIncrement(old(cartItems), p)
      ensures cartCount == Count(cartItems) && cartCount == Count(old(cartItems)) + 1
      ensures storedCart == Some(cartItems)
      ensures UniqueIds(old(cartItems)) ==> UniqueIds(cartItems)
      ensures showCartSidebar && !showModal && selectedProduct.None?
    {
      var lines := AddLine(cartItems, p);
      cartItems := lines;
      showCartSidebar := true;
      showModal := false;
      selectedProduct := None;
      SaveCartToStorage();
    }

    /** Sets the matching line's quantity and saves; an id with no line changes nothing. */
    method UpdateQuantity(id: ProductId, quantity: int)
      modifies this`cartItems, this`cartCount, this`storedCart
      ensures FindIndex(old(cartItems), id).None? ==>
        cartItems == old(cartItems) && cartCount == old(cartCount) && storedCart == old(storedCart)
      ensures FindIndex(old(cartItems), id).Some? ==>
        cartItems == SetQuantity(old(cartItems), FindIndex(old(cartItems), id).value, quantity)
        && cartCount == Count(cartItems) && storedCart == Some(cartItems)
      ensures UniqueIds(old(cartItems)) ==> UniqueIds(cartItems)
    {
      match FindIndex(cartItems, id) {
        case None =>
        case Some(k) =>
          SetQuantityKeepsUnique(cartItems, k, quantity);
          cartItems := SetQuantity(cartItems, k, quantity);
          SaveCartToStorage();
      }
    }

    /** Keeps exactly the lines whose id differs, then saves. */
    method RemoveCartItem(id: ProductId)
      modifies this`cartItems, this`cartCount, this`storedCart
      ensures cartItems == RemoveId(old(cartItems), id)
      ensures cartCount == Count(cartItems) && storedCart == Some(cartItems)
      ensures UniqueIds(old(cartItems)) ==> UniqueIds(cartItems)
    {
      if UniqueIds(cartItems) {
        RemoveIdKeepsUnique(cartItems, id);
      }
      cartItems := RemoveId(cartItems, id);
      SaveCartToStorage();
    }
  }
}
