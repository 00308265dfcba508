/**
 * The product listing page (products.html): the category filter, the sort
 * selector, the category display name, and the cart side panel it edits.
 */
module ProductsPage {
  import opened Wrappers
  import opened Catalog
  import opened CartLines
  import opened Sorting
  import opened Strings

  /** The display names of the eight category slugs the page knows. */
  function CategoryNames(): map<string, string>
  {
    map[
      "electronics" := "Electronics",
      "clothing" := "Clothing",
      "home-garden" := "Home & Garden",
      "sports" := "Sports",
      "books" := "Books",
      "toys-games" := "Toys & Games",
      "beauty-health" := "Beauty & Health",
      "automotive" := "Automotive"]
  }

  /** A known slug gets its display name, any other slug is shown as it is. */
  function GetCategoryName(slug: string): (r: string)
    ensures slug !in CategoryNames() ==> r == slug
    ensures slug in CategoryNames() ==> r == CategoryNames()[slug] && r != slug && r != ""
  {
    if slug in CategoryNames() && CategoryNames()[slug] != "" then CategoryNames()[slug] else slug
  }

  /** With a (non-empty) selected category only its products are listed, otherwise all of them. */
  function CategoryFilter(all: seq<Product>, selected: Option<string>): seq<Product>
  {
    if selected.Some? && selected.value != "" then InCategory(all, selected.value) else all
  }

  lemma CategoryFilterSpec(all: seq<Product>, selected: Option<string>)
    ensures selected.Some? && selected.value != "" ==>
      forall p :: p in CategoryFilter(all, selected) <==> p in all && p.category == selected.value
    ensures !(selected.Some? && selected.value != "") ==> CategoryFilter(all, selected) == all
  {
    if selected.Some? && selected.value != "" {
      InCategoryMembers(all, selected.value);
    }
  }

  /** The lower-cased name, the empty string standing in for a missing one. */
  function NameKey(p: Product): string
  {
    ToLower(p.name)
  }

  /**
   * The comparator each sort option installs, as a "may come before" relation;
   * 'default' and any unknown option install none. collate stands for
   * String.prototype.localeCompare.
   */
  function ComparatorFor(sortBy: string, collate: (string, string) -> bool): Option<(Product, Product) -> bool>
  {
    if sortBy == "price-low" then Some((a: Product, b: Product) => a.price <= b.price)
    else if sortBy == "price-high" then Some((a: Product, b: Product) => b.price <= a.price)
    else if sortBy == "name-asc" then Some((a: Product, b: Product) => collate(NameKey(a), NameKey(b)))
    else if sortBy == "name-desc" then Some((a: Product, b: Product) => collate(NameKey(b), NameKey(a)))
    else if sortBy == "discount" then Some((a: Product, b: Product) => b.discount <= a.discount)
    else if sortBy == "newest" then Some((a: Product, b: Product) => b.id <= a.id)
    else None
  }

  /** What applySort leaves in 'products'. */
  function SortProducts(ps: seq<Product>, sortBy: string, collate: (string, string) -> bool): seq<Product>
  {
    if ps == [] then ps
    else match ComparatorFor(sortBy, collate)
      case None => ps
      case Some(le) => SortBy(ps, le)
  }

  /** Every installed comparator is a total preorder when the collation is. */
  lemma ComparatorIsPreorder(sortBy: string, collate: (string, string) -> bool)
    requires TotalPreorder(collate)
    ensures ComparatorFor(sortBy, collate).Some? ==> TotalPreorder(ComparatorFor(sortBy, collate).value)
  {
    match ComparatorFor(sortBy, collate) {
      case None =>
      case Some(le) =>
        if sortBy == "name-asc" || sortBy == "name-desc" {
          forall a: Product, b: Product ensures le(a, b) || le(b, a) {
            assert collate(NameKey(a), NameKey(b)) || collate(NameKey(b), NameKey(a));
          }
          forall a: Product, b: Product, c: Product | le(a, b) && le(b, c) ensures le(a, c) {
            if sortBy == "name-asc" {
              assert collate(NameKey(a), NameKey(b)) && collate(NameKey(b), NameKey(c));
            } else {
              assert collate(NameKey(c), NameKey(b)) && collate(NameKey(b), NameKey(a));
            }
          }
        }
    }
  }

  /**
   * applySort permutes the list; 'price-low' orders by ascending price,
   * 'price-high' and 'discount' by descending price and discount, 'newest'
   * by descending id, the name options by the collation of lower-cased names,
   * and 'default' (or any other option) keeps the order.
   */
  lemma {:induction false} SortProductsSpec(ps: seq<Product>, sortBy: string, collate: (string, string) -> bool)
    requires TotalPreorder(collate)
    ensures var r := SortProducts(ps, sortBy, collate);
      multiset(r) == multiset(ps)
      && (sortBy == "price-low" ==> forall i, j :: 0 <= i < j < |r| ==> r[i].price <= r[j].price)
      && (sortBy == "price-high" ==> forall i, j :: 0 <= i < j < |r| ==> r[i].price >= r[j].price)
      && (sortBy == "discount" ==> forall i, j :: 0 <= i < j < |r| ==> r[i].discount >= r[j].discount)
      && (sortBy == "newest" ==> forall i, j :: 0 <= i < j < |r| ==> r[i].id >= r[j].id)
      && (sortBy == "name-asc" ==> forall i, j :: 0 <= i < j < |r| ==> collate(NameKey(r[i]), NameKey(r[j])))
      && (sortBy == "name-desc" ==> forall i, j :: 0 <= i < j < |r| ==> collate(NameKey(r[j]), NameKey(r[i])))
      && (ComparatorFor(sortBy, collate).None? ==> r == ps)
  {
    var r := SortProducts(ps, sortBy, collate);
    match ComparatorFor(sortBy, collate) {
      case None =>
        assert r == ps;
      case Some(le) =>
        ComparatorIsPreorder(sortBy, collate);
        if ps != [] {
          assert r == SortBy(ps, le);
          SortBySorted(ps, le);
        }
        OrderedBy(r, sortBy, collate, le);
    }
  }

  /** A list sorted by the comparator an option installs is ordered as that option promises. */
  lemma OrderedBy(r: seq<Product>, sortBy: string, collate: (string, string) -> bool, le: (Product, Product) -> bool)
    requires ComparatorFor(sortBy, collate) == Some(le) && Sorted(r, le)
    ensures sortBy == "price-low" ==> forall i, j :: 0 <= i < j < |r| ==> r[i].price <= r[j].price
    ensures sortBy == "price-high" ==> forall i, j :: 0 <= i < j < |r| ==> r[i].price >= r[j].price
    ensures sortBy == "discount" ==> forall i, j :: 0 <= i < j < |r| ==> r[i].discount >= r[j].discount
    ensures sortBy == "newest" ==> forall i, j :: 0 <= i < j < |r| ==> r[i].id >= r[j].id
    ensures sortBy == "name-asc" ==> forall i, j :: 0 <= i < j < |r| ==> collate(NameKey(r[i]), NameKey(r[j]))
    ensures sortBy == "name-desc" ==> forall i, j :: 0 <= i < j < |r| ==> collate(NameKey(r[j]), NameKey(r[i]))
  {
    forall i, j | 0 <= i < j < |r| ensures le(r[i], r[j]) {
    }
  }

  class ProductsPage {
    var allProducts: seq<Product>
    var products: seq<Product>
    var selectedCategory: Option<string>
    var sortBy: string
    var loading: bool
    var error: Option<string>
    var cartItems: seq<CartLine>
    var cartCount: int
    /** What localStorage holds under 'shopvue_cart'; None when the key is absent. */
    var storedCart: Option<seq<CartLine>>
    var showCartSidebar: bool
    var showModal: bool
    var selectedProduct: Option<Product>

    constructor (category: Option<string>, saved: Option<seq<CartLine>>)
      ensures selectedCategory == category && sortBy == "default"
      ensures cartItems == saved.GetOr([]) && cartCount == Count(cartItems) && storedCart == saved
      ensures products == [] && allProducts == [] && !loading && error.None?
      ensures !showCartSidebar && !showModal && selectedProduct.None?
    {
      allProducts := [];
      products := [];
      selectedCategory := category;
      sortBy := "default";
      loading := false;
      error := None;
      cartItems := saved.GetOr([]);
      cartCount := Count(saved.GetOr([]));
      storedCart := saved;
      showCartSidebar := false;
      showModal := false;
      selectedProduct := None;
    }

    /** The cart watcher: recount the badge and save whenever the lines change. */
    method CartChanged()
      modifies this`cartCount, this`storedCart
      ensures cartCount == Count(cartItems) && storedCart == Some(cartItems)
    {
      cartCount := Count(cartItems);
      storedCart := Some(cartItems);
    }

    /**
     * Loads the catalogue (fetched is None when the service throws), keeps the
     * selected category and sorts; loading is off again afterwards.
     */
    method LoadProducts(fetched: Option<seq<Product>>, collate: (string, string) -> bool)
      requires TotalPreorder(collate)
      modifies this`loading, this`error, this`allProducts, this`products
      ensures !loading
      ensures fetched.None? ==>
        error == Some("Failed to load products. Please try again later.")
        && products == old(products) && allProducts == old(allProducts)
      ensures fetched.Some? ==>
        error.None? && allProducts == fetched.value
        && products == SortProducts(CategoryFilter(fetched.value, selectedCategory), sortBy, collate)
      ensures cartItems == old(cartItems) && selectedCategory == old(selectedCategory) && sortBy == old(sortBy)
    {
      loading := true;
      error := None;
      match fetched {
        case None =>
          error := Some("Failed to load products. Please try again later.");
        case Some(ps) =>
          allProducts := ps;
          products := CategoryFilter(ps, selectedCategory);
          ApplySort(collate);
      }
      loading := false;
    }

    /** Replaces the list by a sorted copy; an empty list is left as it is. */
    method ApplySort(collate: (string, string) -> bool)
      requires TotalPreorder(collate)
      modifies this`products
      ensures products == SortProducts(old(products), sortBy, collate)
      ensures multiset(products) == multiset(old(products))
      ensures allProducts == old(allProducts) && cartItems == old(cartItems) && sortBy == old(sortBy)
      ensures selectedCategory == old(selectedCategory) && error == old(error) && loading == old(loading)
    {
      SortProductsSpec(products, sortBy, collate);
      if |products| == 0 {
        return;
      }
      var sorted := products;
      match ComparatorFor(sortBy, collate) {
        case None =>
        case Some(le) => sorted := SortBy(sorted, le);
      }
      products := sorted;
    }

    /**
     * The local part of handleAddToCart: bump or append the line, save,
     * open the cart panel and close the product dialog.
     */
    method HandleAddToCart(p: Product)
      modifies this`cartItems, this`cartCount, this`storedCart, this`showCartSidebar, this`showModal,
               this`selectedProduct
      ensures cartItems == AddOrIncrement(old(cartItems), p)
      ensures cartCount == Count(cartItems) && cartCount == Count(old(cartItems)) + 1
      ensures storedCart == Some(cartItems)
      ensures UniqueIds(old(cartItems)) ==> UniqueIds(cartItems)
      ensures showCartSidebar && !showModal && selectedProduct.None?
    {
      var lines := AddLine(cartItems, p);
      cartItems := lines;
      storedCart := Some(lines);
      showCartSidebar := true;
      showModal := false;
      selectedProduct := None;
      CartChanged();
    }

    /** Sets the matching line's quantity, whatever its value: this page never drops a line here. */
    method UpdateQuantity(id: ProductId, quantity: int)
      modifies this`cartItems, this`cartCount, this`storedCart
      ensures FindIndex(old(cartItems), id).None? ==>
        cartItems == old(cartItems) && cartCount == old(cartCount) && storedCart == old(storedCart)
      ensures FindIndex(old(cartItems), id).Some? ==>
        cartItems == SetQuantity(old(cartItems), FindIndex(old(cartItems), id).value, quantity)
      ensures |cartItems| == |old(cartItems)|
      ensures cartItems != old(cartItems) ==> cartCount == Count(cartItems) && storedCart == Some(cartItems)
      ensures cartItems == old(cartItems) ==> cartCount == old(cartCount) && storedCart == old(storedCart)
      ensures UniqueIds(old(cartItems)) ==> UniqueIds(cartItems)
    {
      match FindIndex(cartItems, id)
      case None =>
      case Some(k) =>
        SetQuantityKeepsUnique(cartItems, k, quantity);
        if cartItems[k].quantity != quantity {
          cartItems := SetQuantity(cartItems, k, quantity);
          CartChanged();
        } else {
          assert SetQuantity(cartItems, k, quantity) == cartItems;
        }
    }

    /** Keeps exactly the lines whose id differs; the new array fires the watcher. */
    method RemoveCartItem(id: ProductId)
      modifies this`cartItems, this`cartCount, this`storedCart
      ensures cartItems == RemoveId(old(cartItems), id)
      ensures cartCount == Count(cartItems) && storedCart == Some(cartItems)
      ensures UniqueIds(old(cartItems)) ==> UniqueIds(cartItems)
    {
      if UniqueIds(cartItems) {
        RemoveIdKeepsUnique(cartItems, id);
      }
      cartItems := RemoveId(cartItems, id);
      CartChanged();
    }
  }
}
