/**
 * The server's serializers: the defaults it fills into categories and
 * products on the way out, and the checks and defaults of registration.
 * An unset text field is the empty string, which Python treats as unset.
 */
module Serializers {
  import opened Wrappers
  import ApiService

  const CategoryPlaceholder := "https://via.placeholder.com/800x600?text=Category"

  /** The stock photo for each of the eight known category slugs. */
  const CategoryImages: map<string, string> :=
    map[
      "electronics" := "https://images.unsplash.com/photo-1498049794561-7780e7231661?w=800&h=600&fit=crop&q=80",
      "clothing" := "https://images.unsplash.com/photo-1445205170230-053b83016050?w=800&h=600&fit=crop&q=80",
      "home-garden" := "https://images.unsplash.com/photo-1586023492125-27b2c045efd7?w=800&h=600&fit=crop&q=80",
      "sports" := "https://images.unsplash.com/photo-1571019613454-1cb2f99b2d8b?w=800&h=600&fit=crop&q=80",
      "books" := "https://images.unsplash.com/photo-1544947950-fa07a98d237f?w=800&h=600&fit=crop&q=80",
      "toys-games" := "https://images.unsplash.com/photo-1558618666-fcd25c85cd64?w=800&h=600&fit=crop&q=80",
      "beauty-health" := "https://images.unsplash.com/photo-1522338242992-e1a54906a8da?w=800&h=600&fit=crop&q=80",
      "automotive" := "https://images.unsplash.com/photo-1492144534655-ae79c964c9d7?w=800&h=600&fit=crop&q=80"]

  /** A category as the server sends it. */
  datatype CategoryOut = CategoryOut(id: int, name: string, slug: string, description: string, image: string)

  /**
   * A category keeps its own image; without one it gets its slug's stock
   * photo, or the placeholder for any other slug. Nothing else changes.
   */
  function CategoryRepresentation(c: CategoryOut): (r: CategoryOut)
    ensures r.(image := c.image) == c
    ensures r.image != ""
    ensures c.image != "" ==> r.image == c.image
    ensures c.image == "" && c.slug in CategoryImages ==> r.image == CategoryImages[c.slug]
    ensures c.image == "" && c.slug !in CategoryImages ==> r.image == CategoryPlaceholder
  {
    if c.image == "" && c.slug in CategoryImages then c.(image := CategoryImages[c.slug])
    else if c.image == "" then c.(image := CategoryPlaceholder)
    else c
  }

  /** Representing a category twice changes nothing more. */
  lemma CategoryRepresentationIdempotent(c: CategoryOut)
    ensures CategoryRepresentation(CategoryRepresentation(c)) == CategoryRepresentation(c)
  {
  }

  /**
   * The image a product is sent with: its image URL when set; else its
   * uploaded file, made absolute against the request's site when there is
   * a request; else none.
   */
  function ProductImage(imageUrl: string, uploaded: Option<string>, requestSite: Option<string>): (r: Option<string>)
    ensures imageUrl != "" ==> r == Some(imageUrl)
    ensures imageUrl == "" && uploaded.None? ==> r.None?
    ensures imageUrl == "" && uploaded.Some? ==>
      r == Some(if requestSite.Some? then requestSite.value + uploaded.value else uploaded.value)
  {
    if imageUrl != "" then Some(imageUrl)
    else if uploaded.Some? then
      if requestSite.Some? then Some(requestSite.value + uploaded.value) else Some(uploaded.value)
    else None
  }

  /** The registration fields the server reads; the names are optional. */
  datatype RegisterData = RegisterData(
    username: string, email: string, password: string, password2: string,
    firstName: Option<string>, lastName: Option<string>)

  datatype User = User(username: string, email: string, password: string, firstName: string, lastName: string)

  datatype Validated = Valid(data: RegisterData) | Invalid(errors: map<string, string>)

  /** validate(): refused when the two passwords differ, with the message on the password field. */
  function Validate(attrs: RegisterData): (r: Validated)
    ensures r.Valid? <==> attrs.password == attrs.password2
    ensures r.Valid? ==> r.data == attrs
    ensures r.Invalid? ==> r.errors == map["password" := "Password fields didn't match."]
  {
    if attrs.password != attrs.password2 then Invalid(map["password" := "Password fields didn't match."])
    else Valid(attrs)
  }

  /** The user created from validated data: the second password is dropped, missing names become "". */
  function Create(data: RegisterData): (u: User)
    ensures u.username == data.username && u.email == data.email && u.password == data.password
    ensures u.firstName == data.firstName.GetOr("") && u.lastName == data.lastName.GetOr("")
  {
    User(data.username, data.email, data.password, data.firstName.GetOr(""), data.lastName.GetOr(""))
  }

  /** What the server reads from the body the front end's register() posts. */
  function FromRequest(q: ApiService.RegisterRequest): RegisterData
  {
    RegisterData(q.username, q.email, q.password, q.password2, Some(q.firstName), Some(q.lastName))
  }

  /**
   * A sign-up from the front end always passes validate()'s password-match
   * check, and the user created from it is named by the e-mail, with the
   * first name before the first space of the full name. The field
   * validators that run before validate() are not part of this.
   */
  lemma FrontEndSignUpAccepted(email: string, password: string, fullName: Option<string>)
    ensures Validate(FromRequest(ApiService.RegisterPayload(email, password, fullName))).Valid?
    ensures var u := Create(FromRequest(ApiService.RegisterPayload(email, password, fullName)));
      u.username == email && u.email == email && u.password == password
      && (fullName.None? ==> u.firstName == "" && u.lastName == "")
      && (fullName.Some? ==> ' ' !in u.firstName)
      && (fullName.Some? && ' ' in fullName.value ==> u.firstName + " " + u.lastName == fullName.value)
  {
    if fullName.Some? {
      ApiService.RegisterNameRoundTrip(email, password, fullName.value);
    }
  }
}
