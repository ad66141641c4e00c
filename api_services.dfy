/**
 * The data-access functions of the site: each one turns what the API
 * returned into the records the renderers use. The network request and the
 * JSON parsing are not modelled; what they deliver is the `Response` input.
 */
module ApiServices {
  import opened Js
  import opened Seqs

  /** The parsed body `{success, data, message}`; `success` stands for the truthiness of that field. */
  datatype Envelope<T> = Envelope(success: bool, data: T, message: Option<string>)

  /** What `fetch` and `response.json()` produced: a thrown error, or a parsed envelope. */
  datatype Response<T> = Failure(reason: string) | Received(envelope: Envelope<T>)

  /**
   * A response whose `data` should be an array; `None` stands for any other
   * payload (`null`, an object), on which `data.data.map` throws.
   */
  type ListResponse<T> = Response<Option<seq<T>>>

  /** The items of a successful list response, or None when the accessor ends up in its catch or else branch. */
  function SuccessItems<T>(resp: ListResponse<T>): Option<seq<T>> {
    if resp.Received? && resp.envelope.success then resp.envelope.data else None
  }

  // ----- categories -----

  datatype RawCategory = RawCategory(_id: Option<string>, name: Option<string>, productCount: Option<int>, slug: Option<string>)

  datatype Category = Category(id: Option<string>, name: Option<string>, productCount: Option<int>, slug: Option<string>)

  function NormalizeCategory(c: RawCategory): Category {
    Category(c._id, c.name, c.productCount, c.slug)
  }

  /** `fetchCategories`: one normalised record per payload item, or `[]`. */
  function FetchCategories(resp: ListResponse<RawCategory>): (r: seq<Category>)
    ensures SuccessItems(resp).Some? ==>
      var items := SuccessItems(resp).value;
      |r| == |items| &&
      forall i :: 0 <= i < |items| ==>
        r[i].id == items[i]._id && r[i].name == items[i].name &&
        r[i].productCount == items[i].productCount && r[i].slug == items[i].slug
    ensures SuccessItems(resp).None? ==> r == []
  {
    match SuccessItems(resp)
    case Some(items) => Map(NormalizeCategory, items)
    case None => []
  }

  // ----- products -----

  /**
   * The `category` property of a raw product: absent, `null`, a bare string
   * (an unpopulated reference), or an embedded category object.
   */
  datatype RawCategoryField =
    | Undefined
    | Null
    | Str(s: string)
    | Ref(_id: Option<string>, name: Option<string>, slug: Option<string>)

  predicate IsNullish(c: RawCategoryField) {
    c.Undefined? || c.Null?
  }

  /**
   * A product as the API sends it. `id` is present only if the backend
   * chooses to send one beside `_id`.
   */
  datatype RawProduct = RawProduct(
    _id: Option<string>, id: Option<string>, name: Option<string>, description: Option<string>,
    image: Option<string>, category: RawCategoryField, createdAt: Option<string>, inStock: Option<bool>)

  /** The category embedded in a normalised product. */
  datatype CategoryRef = CategoryRef(id: Option<string>, name: Option<string>, slug: Option<string>)

  /**
   * A normalised product. It has an `id` and no `_id` property; the creation
   * date keeps the payload's text (date parsing is not modelled).
   */
  datatype Product = Product(
    id: Option<string>, name: Option<string>, description: Option<string>, image: Option<string>,
    category: CategoryRef, createdAt: Option<string>, inStock: Option<bool>)

  /** Reading `_id`, `name` and `slug` off the raw category; a string has none of these properties. */
  function NormalizeCategoryRef(c: RawCategoryField): CategoryRef
    requires !IsNullish(c)
  {
    match c
    case Str(_) => CategoryRef(None, None, None)
    case Ref(i, n, s) => CategoryRef(i, n, s)
  }

  function NormalizeProduct(p: RawProduct): Product
    requires !IsNullish(p.category)
  {
    Product(p._id, p.name, p.description, p.image, NormalizeCategoryRef(p.category), p.createdAt, p.inStock)
  }

  /** True when mapping every item succeeds: `product.category._id` throws on a nullish category. */
  predicate AllCategoriesPresent(items: seq<RawProduct>) {
    forall i :: 0 <= i < |items| ==> !IsNullish(items[i].category)
  }

  /** The mapped array of `fetchProducts` before the optional category filter. */
  function NormalizedProducts(resp: ListResponse<RawProduct>): (r: seq<Product>)
    ensures SuccessItems(resp).Some? && AllCategoriesPresent(SuccessItems(resp).value) ==>
      var items := SuccessItems(resp).value;
      |r| == |items| &&
      forall i :: 0 <= i < |items| ==>
        r[i].id == items[i]._id && r[i].name == items[i].name &&
        r[i].description == items[i].description && r[i].image == items[i].image &&
        r[i].createdAt == items[i].createdAt && r[i].inStock == items[i].inStock &&
        (items[i].category.Ref? ==>
          r[i].category == CategoryRef(items[i].category._id, items[i].category.name, items[i].category.slug)) &&
        (items[i].category.Str? ==> r[i].category == CategoryRef(None, None, None))
    ensures SuccessItems(resp).None? || !AllCategoriesPresent(SuccessItems(resp).value) ==> r == []
  {
    match SuccessItems(resp)
    case Some(items) =>
      if AllCategoriesPresent(items) then
        seq(|items|, i requires 0 <= i < |items| && AllCategoriesPresent(items) => NormalizeProduct(items[i]))
      else []
    case None => []
  }

  predicate InCategory(categoryId: Option<string>, p: Product) {
    p.category.id == categoryId
  }

  /**
   * `fetchProducts(options)`: the normalised products, narrowed to those whose
   * category id is `categoryId` when that option is truthy.
   */
  function FetchProducts(resp: ListResponse<RawProduct>, categoryId: Option<string>): (r: seq<Product>)
    ensures !TruthyStr(categoryId) ==> r == NormalizedProducts(resp)
    ensures TruthyStr(categoryId) ==>
      |r| <= |NormalizedProducts(resp)| &&
      forall p :: p in r <==> p in NormalizedProducts(resp) && p.category.id == categoryId
  {
    var all := NormalizedProducts(resp);
    if TruthyStr(categoryId) then
      FilterMembers(p => InCategory(categoryId, p), all);
      Filter(p => InCategory(categoryId, p), all)
    else all
  }

  /**
   * `fetchProducts` reads nothing of the response but its items: two
   * responses with the same items (or both without) give the same result,
   * whatever their `message`.
   */
  lemma FetchProductsReadsOnlyItems(r1: ListResponse<RawProduct>, r2: ListResponse<RawProduct>, categoryId: Option<string>)
    requires SuccessItems(r1) == SuccessItems(r2)
    ensures FetchProducts(r1, categoryId) == FetchProducts(r2, categoryId)
  {
    assert NormalizedProducts(r1) == NormalizedProducts(r2);
  }

  /** A successful list response carrying `items`. */
  function Listed<T>(items: seq<T>): ListResponse<T> {
    Received(Envelope(true, Some(items), None))
  }

  /**
   * `fetchProducts` keeps the payload order: for a payload split in two
   * (neither part with a nullish category), the result is the result for the
   * first part followed by the result for the second.
   */
  lemma FetchProductsAppend(a: seq<RawProduct>, b: seq<RawProduct>, categoryId: Option<string>)
    requires AllCategoriesPresent(a) && AllCategoriesPresent(b)
    ensures FetchProducts(Listed(a + b), categoryId) == FetchProducts(Listed(a), categoryId) + FetchProducts(Listed(b), categoryId)
  {
    assert AllCategoriesPresent(a + b) by {
      forall i | 0 <= i < |a + b| ensures !IsNullish((a + b)[i].category) {
        if i >= |a| { assert (a + b)[i] == b[i - |a|]; }
      }
    }
    var all := NormalizedProducts(Listed(a + b));
    var left, right := NormalizedProducts(Listed(a)), NormalizedProducts(Listed(b));
    assert all == left + right by {
      assert |all| == |left + right|;
      forall i | 0 <= i < |all| ensures all[i] == (left + right)[i] {
        if i >= |a| { assert (a + b)[i] == b[i - |a|]; }
      }
    }
    if TruthyStr(categoryId) {
      FilterAppend(p => InCategory(categoryId, p), left, right);
    }
  }

  /**
   * One payload item yields its normalised product exactly when there is no
   * truthy category filter or its category id matches, and nothing otherwise.
   */
  lemma FetchProductsSingle(x: RawProduct, categoryId: Option<string>)
    requires !IsNullish(x.category)
    ensures FetchProducts(Listed([x]), categoryId) ==
      if !TruthyStr(categoryId) || NormalizeProduct(x).category.id == categoryId then [NormalizeProduct(x)] else []
  {
    assert AllCategoriesPresent([x]);
    var all := NormalizedProducts(Listed([x]));
    assert all == [NormalizeProduct(x)];
    if TruthyStr(categoryId) {
      assert Filter(p => InCategory(categoryId, p), all[1..]) == [];
    }
  }

  /**
   * `fetchProductById`: the `data` payload exactly as received (its `_id` is
   * not renamed), or `null` (None) on a failure or an unsuccessful envelope.
   * A missing payload is `None` as well: both are falsy to the caller.
   */
  function FetchProductById(resp: Response<Option<RawProduct>>): (r: Option<RawProduct>)
    ensures resp.Received? && resp.envelope.success ==> r == resp.envelope.data
    ensures resp.Failure? || !resp.envelope.success ==> r == None
  {
    match resp
    case Failure(_) => None
    case Received(env) => if env.success then env.data else None
  }

  // ----- certificates -----

  datatype RawCertificate = RawCertificate(
    _id: Option<string>, name: Option<string>, description: Option<string>, image: Option<string>,
    isActive: Option<bool>, category: Option<string>)

  datatype Certificate = Certificate(
    id: Option<string>, name: Option<string>, description: Option<string>, image: Option<string>,
    isActive: Option<bool>, category: Option<string>)

  function NormalizeCertificate(c: RawCertificate): Certificate {
    Certificate(c._id, c.name, c.description, c.image, c.isActive, c.category)
  }

  /** `fetchCertificates`: one normalised record per payload item, or `[]`. */
  function FetchCertificates(resp: ListResponse<RawCertificate>): (r: seq<Certificate>)
    ensures SuccessItems(resp).Some? ==>
      var items := SuccessItems(resp).value;
      |r| == |items| &&
      forall i :: 0 <= i < |items| ==>
        r[i].id == items[i]._id && r[i].name == items[i].name &&
        r[i].description == items[i].description && r[i].image == items[i].image &&
        r[i].isActive == items[i].isActive && r[i].category == items[i].category
    ensures SuccessItems(resp).None? ==> r == []
  {
    match SuccessItems(resp)
    case Some(items) => Map(NormalizeCertificate, items)
    case None => []
  }

  // ----- team -----

  /** A team member; `whatsapp` is None when the payload has no string there. */
  datatype RawMember = RawMember(
    _id: Option<string>, name: Option<string>, position: Option<string>, image: Option<string>,
    email: Option<string>, phone: Option<string>, whatsapp: Option<string>, isActive: Option<bool>)

  datatype Member = Member(
    id: Option<string>, name: Option<string>, position: Option<string>, image: Option<string>,
    email: Option<string>, phone: Option<string>, whatsapp: Option<string>, isActive: Option<bool>)

  function NormalizeMember(m: RawMember): Member {
    Member(m._id, m.name, m.position, m.image, m.email, m.phone, m.whatsapp, m.isActive)
  }

  /** `fetchTeam`: one normalised record per payload item, or `[]`. */
  function FetchTeam(resp: ListResponse<RawMember>): (r: seq<Member>)
    ensures SuccessItems(resp).Some? ==>
      var items := SuccessItems(resp).value;
      |r| == |items| &&
      forall i :: 0 <= i < |items| ==>
        r[i].id == items[i]._id && r[i].name == items[i].name &&
        r[i].position == items[i].position && r[i].image == items[i].image &&
        r[i].email == items[i].email && r[i].phone == items[i].phone &&
        r[i].whatsapp == items[i].whatsapp && r[i].isActive == items[i].isActive
    ensures SuccessItems(resp).None? ==> r == []
  {
    match SuccessItems(resp)
    case Some(items) => Map(NormalizeMember, items)
    case None => []
  }

  // ----- contact -----

  /** A contact entry; its `type` and `label` properties are called `kind` and `displayLabel` here (both are Dafny keywords). */
  datatype RawContactEntry = RawContactEntry(_id: Option<string>, kind: Option<string>, displayLabel: Option<string>, value: Option<string>)

  datatype ContactEntry = ContactEntry(id: Option<string>, kind: Option<string>, displayLabel: Option<string>, value: Option<string>)

  function NormalizeContactEntry(e: RawContactEntry): ContactEntry {
    ContactEntry(e._id, e.kind, e.displayLabel, e.value)
  }

  /** `fetchContact`: one normalised record per payload item, or `[]`. */
  function FetchContact(resp: ListResponse<RawContactEntry>): (r: seq<ContactEntry>)
    ensures SuccessItems(resp).Some? ==>
      var items := SuccessItems(resp).value;
      |r| == |items| &&
      forall i :: 0 <= i < |items| ==>
        r[i].id == items[i]._id && r[i].kind == items[i].kind &&
        r[i].displayLabel == items[i].displayLabel && r[i].value == items[i].value
    ensures SuccessItems(resp).None? ==> r == []
  {
    match SuccessItems(resp)
    case Some(items) => Map(NormalizeContactEntry, items)
    case None => []
  }

  // ----- messages -----

  /**
   * `sendMessage`: resolves with the whole envelope on success; rejects with
   * the envelope's message (or a fixed text when it is falsy) on an
   * unsuccessful envelope, and with the original error on a failure.
   */
  function SendMessage<T>(resp: Response<T>): (r: Result<Envelope<T>>)
    ensures r.Ok? <==> resp.Received? && resp.envelope.success
    ensures r.Ok? ==> r.value == resp.envelope
    ensures resp.Failure? ==> r == Err(resp.reason)
    ensures resp.Received? && !resp.envelope.success ==>
      r == Err(if TruthyStr(resp.envelope.message) then resp.envelope.message.value else "Failed to send message")
  {
    match resp
    case Failure(reason) => Err(reason)
    case Received(env) =>
      if !env.success then Err(if TruthyStr(env.message) then env.message.value else "Failed to send message")
      else Ok(env)
  }
}
