/**
 * The pure parts of the front end's API layer: the auth header, the
 * server-to-page record transforms, the search and category fallbacks, the
 * registration payload and the cart-listing mapping. The HTTP calls
 * themselves are not modelled; their results arrive as parameters.
 */
module ApiService {
  import opened Wrappers
  import opened Strings
  import opened Catalog

  type EntryId = int

  const ProductPlaceholder := "https://via.placeholder.com/400x300?text=No+Image"

  /** The access token under 'shopvue_access_token' wins; 'auth_token' is the fallback. Empty strings are falsy. */
  function AuthToken(access: Option<string>, legacy: Option<string>): (r: Option<string>)
    ensures access.Some? && access.value != "" ==> r == access
    ensures !(access.Some? && access.value != "") ==> r == legacy
  {
    if access.Some? && access.value != "" then access else legacy
  }

  /** The Authorization header, present exactly when a non-empty token is found. */
  function AuthHeaders(access: Option<string>, legacy: Option<string>): (h: map<string, string>)
    ensures "Authorization" in h <==> AuthToken(access, legacy).Some? && AuthToken(access, legacy).value != ""
    ensures "Authorization" in h ==> h == map["Authorization" := "Bearer " + AuthToken(access, legacy).value]
    ensures "Authorization" !in h ==> h == map[]
  {
    var token := AuthToken(access, legacy);
    if token.Some? && token.value != "" then map["Authorization" := "Bearer " + token.value] else map[]
  }

  /** A category as the server may send it inside a product: nested, as a bare slug, or missing. */
  datatype RawCategory = Nested(slug: string) | Flat(name: string) | NoCategory

  /** A product as the server sends it; None marks a field that is missing or null. */
  datatype RawProduct = RawProduct(
    id: ProductId,
    name: string,
    description: string,
    image: Option<string>,
    price: real,
    originalPrice: Option<real>,
    discount: Option<real>,
    rating: Option<real>,
    reviewsCount: Option<int>,
    category: RawCategory,
    slug: string)

  /** JavaScript truthiness of an optional string, number or integer. */
  predicate PresentText(s: Option<string>) { s.Some? && s.value != "" }
  predicate PresentNumber(x: Option<real>) { x.Some? && x.value != 0.0 }

  function CategorySlug(c: RawCategory): string
  {
    match c
    case Nested(slug) => slug
    case Flat(name) => name
    case NoCategory => ""
  }

  /** transformProduct: the page's product, with defaults filled in for falsy fields. */
  function TransformProduct(raw: RawProduct): (p: Product)
    ensures p.id == raw.id && p.name == raw.name && p.price == raw.price && p.slug == raw.slug
    ensures p.description == raw.description
    ensures p.rating == (if PresentNumber(raw.rating) then raw.rating.value else 0.0)
    ensures p.image == (if PresentText(raw.image) then raw.image.value else ProductPlaceholder)
    ensures p.originalPrice == (if PresentNumber(raw.originalPrice) then raw.originalPrice else None)
    ensures p.discount == (if PresentNumber(raw.discount) then raw.discount.value else 0.0)
    ensures p.reviews == (if raw.reviewsCount.Some? && raw.reviewsCount.value != 0 then raw.reviewsCount.value else 0)
    ensures p.category == CategorySlug(raw.category)
  {
    Product(
      raw.id, raw.name, raw.description,
      if PresentText(raw.image) then raw.image.value else ProductPlaceholder,
      raw.price,
      if PresentNumber(raw.originalPrice) then raw.originalPrice else None,
      if PresentNumber(raw.discount) then raw.discount.value else 0.0,
      if PresentNumber(raw.rating) then raw.rating.value else 0.0,
      if raw.reviewsCount.Some? && raw.reviewsCount.value != 0 then raw.reviewsCount.value else 0,
      CategorySlug(raw.category),
      raw.slug)
  }

  /**
   * The defaults only ever replace missing values: the image is the
   * placeholder exactly when none (or the placeholder itself) was sent, the
   * original price is null exactly when none was sent, and an absent
   * discount, rating or review count reads as 0.
   */
  lemma TransformDefaultsOnlyWhenMissing(raw: RawProduct)
    ensures var p := TransformProduct(raw);
      (p.image == ProductPlaceholder <==> !PresentText(raw.image) || raw.image.value == ProductPlaceholder)
      && (p.originalPrice.None? <==> !PresentNumber(raw.originalPrice))
      && (raw.discount.None? ==> p.discount == 0.0)
      && (raw.rating.None? ==> p.rating == 0.0)
      && (raw.reviewsCount.None? ==> p.reviews == 0)
      && p.image != ""
  {
  }

  /** A category record as the server sends it, and as the page holds it. */
  datatype RawCategoryRecord = RawCategoryRecord(id: int, name: string, description: Option<string>, image: Option<string>, slug: string)
  datatype Category = Category(id: int, name: string, description: string, image: string, slug: string)

  /** transformCategory: description defaults to '' and image to the placeholder. */
  function TransformCategory(raw: RawCategoryRecord): (c: Category)
    ensures c.id == raw.id && c.name == raw.name && c.slug == raw.slug
    ensures c.description == (if PresentText(raw.description) then raw.description.value else "")
    ensures c.image == (if PresentText(raw.image) then raw.image.value else ProductPlaceholder)
    ensures c.image != ""
  {
    Category(raw.id, raw.name,
      if PresentText(raw.description) then raw.description.value else "",
      if PresentText(raw.image) then raw.image.value else ProductPlaceholder,
      raw.slug)
  }

  function TransformAll(raws: seq<RawProduct>): (ps: seq<Product>)
    ensures |ps| == |raws|
    ensures forall i :: 0 <= i < |raws| ==> ps[i] == TransformProduct(raws[i])
  {
    seq(|raws|, i requires 0 <= i < |raws| => TransformProduct(raws[i]))
  }

  /** The client-side match used when the search endpoint fails. */
  predicate Matches(p: Product, term: string)
  {
    Contains(ToLower(p.name), term) || Contains(ToLower(p.description), term) || Contains(ToLower(p.category), term)
  }

  function FilterMatching(ps: seq<Product>, term: string): (r: seq<Product>)
    ensures |r| <= |ps|
    ensures forall i :: 0 <= i < |r| ==> Matches(r[i], term)
  {
    if ps == [] then []
    else if Matches(ps[0], term) then [ps[0]] + FilterMatching(ps[1..], term)
    else FilterMatching(ps[1..], term)
  }

  lemma {:induction false} FilterMatchingMembers(ps: seq<Product>, term: string)
    ensures forall p :: p in FilterMatching(ps, term) <==> p in ps && Matches(p, term)
    decreases |ps|
  {
    if ps != [] {
      FilterMatchingMembers(ps[1..], term);
      assert ps == [ps[0]] + ps[1..];
    }
  }

  /**
   * searchProducts: a blank query finds nothing without asking the server;
   * otherwise the server's answer (remote, None when the call fails), or
   * the mock products matching the lower-cased, trimmed query.
   */
  function SearchProducts(query: string, remote: Option<seq<RawProduct>>): seq<Product>
  {
    SearchIn(query, remote, MockProducts())
  }

  /** The search with the list it falls back on as a parameter. */
  function SearchIn(query: string, remote: Option<seq<RawProduct>>, fallback: seq<Product>): seq<Product>
  {
    if query == "" || Trim(query) == "" then []
    else match remote
      case Some(raws) => TransformAll(raws)
      case None => FilterMatching(fallback, Trim(ToLower(query)))
  }

  /**
   * A blank query yields []; when the server fails, a product of the
   * fallback list is returned exactly when the trimmed, lower-cased query
   * occurs in its lower-cased name, description or category.
   */
  lemma SearchInSpec(query: string, remote: Option<seq<RawProduct>>, fallback: seq<Product>)
    ensures Trim(query) == "" ==> SearchIn(query, remote, fallback) == []
    ensures Trim(query) != "" && remote.None? ==>
      forall p :: p in SearchIn(query, remote, fallback) <==> p in fallback && Matches(p, Trim(ToLower(query)))
    ensures Trim(query) != "" && remote.Some? ==> SearchIn(query, remote, fallback) == TransformAll(remote.value)
  {
    if query != "" && Trim(query) != "" && remote.None? {
      FilterMatchingMembers(fallback, Trim(ToLower(query)));
    }
  }

  /** getProductsByCategory: the server's list, or the mock products of that category. */
  function ProductsByCategory(slug: string, remote: Option<seq<RawProduct>>): seq<Product>
  {
    ProductsIn(slug, remote, MockProducts())
  }

  /** The category listing with the list it falls back on as a parameter. */
  function ProductsIn(slug: string, remote: Option<seq<RawProduct>>, fallback: seq<Product>): seq<Product>
  {
    match remote
    case Some(raws) => TransformAll(raws)
    case None => InCategory(fallback, slug)
  }

  /** When the server fails, exactly the fallback products of that category are listed. */
  lemma ProductsInFallback(slug: string, fallback: seq<Product>)
    ensures forall p :: p in ProductsIn(slug, None, fallback) <==> p in fallback && p.category == slug
  {
    InCategoryMembers(fallback, slug);
  }

  /** The body register() posts to the server. */
  datatype RegisterRequest = RegisterRequest(
    username: string, email: string, password: string, password2: string, firstName: string, lastName: string)

  function RegisterPayload(email: string, password: string, fullName: Option<string>): (r: RegisterRequest)
    ensures r.username == email && r.email == email
    ensures r.password == password && r.password2 == password
    ensures fullName.None? ==> r.firstName == "" && r.lastName == ""
  {
    match fullName
    case None => RegisterRequest(email, email, password, password, "", "")
    case Some(n) =>
      var words := Split(n, ' ');
      RegisterRequest(email, email, password, password, words[0], Join(words[1..], " "))
  }

  /**
   * The name split loses nothing: the first name is everything before the
   * first space, and first name, a space and last name give the full name
   * back whenever it has a space.
   */
  lemma RegisterNameRoundTrip(email: string, password: string, n: string)
    ensures var r := RegisterPayload(email, password, Some(n));
      (' ' !in n ==> r.firstName == n && r.lastName == "")
      && (' ' in n ==> r.firstName + " " + r.lastName == n)
      && ' ' !in r.firstName
  {
    var words := Split(n, ' ');
    SplitPiecesClean(n, ' ');
    if ' ' !in n {
      SplitWithoutSeparator(n, ' ');
      assert words[1..] == [];
    } else {
      SplitWithSeparator(n, ' ');
      SplitJoin(n, ' ');
    }
  }

  /** One line of the server-side cart, as the server sends it. */
  datatype RawCartItem = RawCartItem(id: EntryId, product: RawProduct, quantity: int, totalPrice: Option<real>)

  /** The shapes the cart endpoint may answer with. */
  datatype CartResponse = Paginated(results: seq<RawCartItem>) | Bare(items: seq<RawCartItem>) | OtherShape

  /** One line of the server-side cart, as getCart hands it to the pages. */
  datatype RemoteCartItem = RemoteCartItem(id: EntryId, product: Product, quantity: int, totalPrice: real)

  function MapCartItem(raw: RawCartItem): RemoteCartItem
  {
    RemoteCartItem(raw.id, TransformProduct(raw.product), raw.quantity,
      if raw.totalPrice.Some? then raw.totalPrice.value else 0.0)
  }

  /** getCart: paginated results or a bare array are mapped line by line; any other answer is an empty cart. */
  function GetCartItems(data: CartResponse): (r: seq<RemoteCartItem>)
    ensures data.OtherShape? ==> r == []
    ensures var raws := if data.Paginated? then data.results else if data.Bare? then data.items else [];
      |r| == |raws|
      && forall i :: 0 <= i < |raws| ==>
           r[i].id == raws[i].id && r[i].product == TransformProduct(raws[i].product)
           && r[i].quantity == raws[i].quantity
           && r[i].totalPrice == (if raws[i].totalPrice.Some? then raws[i].totalPrice.value else 0.0)
  {
    var raws := match data
      case Paginated(results) => results
      case Bare(items) => items
      case OtherShape => [];
    seq(|raws|, i requires 0 <= i < |raws| => MapCartItem(raws[i]))
  }
}
