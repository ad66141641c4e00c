/**
 * The three product sections: the six newest products on the home page,
 * the products page with its category filter buttons, and the product
 * details page with its related products.
 */
module ProductsIntegration {
  import opened Js
  import opened Seqs
  import opened ApiServices
  import opened Dom

  /** The column classes every product tile starts with. */
  const CardClasses: seq<string> := ["col-lg-4", "col-md-6", "my-5"]
  /** The column classes of a related-product thumbnail. */
  const RelatedClasses: seq<string> := ["col-lg-4", "col-md-6"]
  const RecentLimit: nat := 6
  const RelatedLimit: nat := 3
  const NoRelatedText := "No related projects found."

  /** A normalised product has no `_id` property: reading it gives `undefined`. */
  function UnderscoreId(p: Product): Option<string> {
    None
  }

  // ----- home page: Recent Work -----

  /**
   * The home-page tile: image, name and the category name as caption. Its
   * link reads `product._id`, which a normalised product lacks, so the link
   * is always `undefined`.
   */
  function RecentCard(p: Product): (f: Fragment)
    ensures f.ProductCard? && f.link == None
    ensures f.image == p.image && f.name == p.name && f.caption == Interpolate(p.category.name)
    ensures f.classes == CardClasses
  {
    ProductCard(UnderscoreId(p), p.image, p.name, Interpolate(p.category.name), CardClasses)
  }

  /**
   * `initializeRecentWorkSection`: when both the section and its container
   * exist, the container is cleared and then holds one tile for each of the
   * first six fetched products, in fetch order. Every tile's link target is
   * `undefined`, since the tile reads `_id` off a normalised product.
   */
  method InitializeRecentWorkSection(sectionPresent: bool, container: Container?, resp: ListResponse<RawProduct>)
    modifies container
    ensures !sectionPresent && container != null ==> unchanged(container)
    ensures sectionPresent && container != null ==>
      var products := FetchProducts(resp, None);
      |container.children| == (if |products| < RecentLimit then |products| else RecentLimit) &&
      (forall i :: 0 <= i < |container.children| ==> container.children[i] == RecentCard(products[i])) &&
      (forall i :: 0 <= i < |container.children| ==> container.children[i].link == None)
  {
    if !sectionPresent || container == null {
      return;
    }
    var products := FetchProducts(resp, None);
    var display := Take(products, RecentLimit);
    container.Clear();
    container.AppendEach(RecentCard, display);
  }

  // ----- products page -----

  /** `category.productCount || 0`. */
  function FilterCount(productCount: Option<int>): (n: int)
    ensures n == productCount.GetOr(0)
  {
    if TruthyNum(productCount) then productCount.value else 0
  }

  /** One category filter button: `data-filter=".<slug>"` and the label's name and count. */
  function CategoryButton(c: Category): (f: Fragment)
    ensures f.CategoryFilter? && |f.filter| > 0 && f.filter[0] == '.' && f.filter[1..] == Interpolate(c.slug)
    ensures f.name == c.name && f.count == c.productCount.GetOr(0)
  {
    CategoryFilter("." + Interpolate(c.slug), c.name, FilterCount(c.productCount))
  }

  /**
   * The tile's classes: the column classes, then the category slug when
   * `product.category && product.category.slug` holds (the category object
   * of a normalised product always exists).
   */
  function ProductClasses(p: Product): (r: seq<string>)
    ensures |r| == |CardClasses| || |r| == |CardClasses| + 1
    ensures r[..|CardClasses|] == CardClasses
    ensures |r| == |CardClasses| + 1 <==> TruthyStr(p.category.slug)
    ensures |r| == |CardClasses| + 1 ==> r[|CardClasses|] == p.category.slug.value
  {
    if TruthyStr(p.category.slug) then CardClasses + [p.category.slug.value] else CardClasses
  }

  /** `product.category?.name || 'Uncategorized'`: never empty. */
  function CategoryCaption(p: Product): (s: string)
    ensures s != ""
    ensures TruthyStr(p.category.name) ==> s == p.category.name.value
    ensures !TruthyStr(p.category.name) ==> s == "Uncategorized"
  {
    if TruthyStr(p.category.name) then p.category.name.value else "Uncategorized"
  }

  /** The products-page tile: unlike the home-page tile, its link reads `product.id`. */
  function ProductsPageCard(p: Product): (f: Fragment)
    ensures f.ProductCard? && f.link == p.id
    ensures f.image == p.image && f.name == p.name
    ensures f.caption == CategoryCaption(p) && f.classes == ProductClasses(p)
  {
    ProductCard(p.id, p.image, p.name, CategoryCaption(p), ProductClasses(p))
  }

  /**
   * The filter list: the fixed "All Products" button, then one button per
   * category in order, with its `.slug` filter, its name and its count.
   */
  method RenderCategoryFilters(filters: Container, cats: seq<Category>)
    modifies filters
    ensures |filters.children| == |cats| + 1 && filters.children[0] == AllProductsFilter
    ensures forall i :: 0 <= i < |cats| ==>
      filters.children[i + 1] ==
        CategoryFilter("." + Interpolate(cats[i].slug), cats[i].name, cats[i].productCount.GetOr(0))
  {
    filters.ReplaceWith(AllProductsFilter);
    filters.AppendEach(CategoryButton, cats);
    var buttons := Map(CategoryButton, cats);
    assert filters.children == [AllProductsFilter] + buttons;
    forall i | 0 <= i < |cats|
      ensures filters.children[i + 1] == CategoryButton(cats[i])
    {
      assert filters.children[i + 1] == buttons[i];
    }
  }

  /**
   * `initializeProductsPage`: when both containers exist, the filter list is
   * the "All Products" button followed by one button per fetched category in
   * order, and the products container holds one tile per fetched product in
   * order. Otherwise nothing changes.
   */
  method InitializeProductsPage(
    filters: Container?, products: Container?,
    categoriesResp: ListResponse<RawCategory>, productsResp: ListResponse<RawProduct>)
    requires filters != null && products != null ==> filters != products
    modifies filters, products
    ensures (filters == null || products == null) && filters != null ==> unchanged(filters)
    ensures (filters == null || products == null) && products != null ==> unchanged(products)
    ensures filters != null && products != null ==>
      var cats := FetchCategories(categoriesResp);
      |filters.children| == |cats| + 1 && filters.children[0] == AllProductsFilter &&
      forall i :: 0 <= i < |cats| ==>
        filters.children[i + 1] ==
          CategoryFilter("." + Interpolate(cats[i].slug), cats[i].name, cats[i].productCount.GetOr(0))
    ensures filters != null && products != null ==>
      products.children == Map(ProductsPageCard, FetchProducts(productsResp, None))
  {
    if filters == null || products == null {
      return;
    }
    RenderCategoryFilters(filters, FetchCategories(categoriesResp));
    var all := FetchProducts(productsResp, None);
    products.Clear();
    products.AppendEach(ProductsPageCard, all);
  }

  // ----- details page: related products -----

  /**
   * The value `category?.slug || category?.name || category` evaluates to,
   * for comparison with `===`: `undefined`, `null`, a string, or an object
   * (a reference that is never `===` to the other side's value here).
   */
  datatype KeyValue = KeyUndefined | KeyNull | KeyString(s: string) | KeyObject

  /** JavaScript `===` on such values. */
  predicate StrictEqual(a: KeyValue, b: KeyValue) {
    match (a, b)
    case (KeyUndefined, KeyUndefined) => true
    case (KeyNull, KeyNull) => true
    case (KeyString(x), KeyString(y)) => x == y
    case _ => false
  }

  /** The category key of a listed (normalised) product, whose category is always an object. */
  function CategoryKey(p: Product): (k: KeyValue)
    ensures !k.KeyUndefined? && !k.KeyNull?
    ensures k.KeyString? <==> TruthyStr(p.category.slug) || TruthyStr(p.category.name)
    ensures k.KeyString? ==> k.s != ""
    ensures TruthyStr(p.category.slug) ==> k == KeyString(p.category.slug.value)
    ensures !TruthyStr(p.category.slug) && TruthyStr(p.category.name) ==> k == KeyString(p.category.name.value)
  {
    if TruthyStr(p.category.slug) then KeyString(p.category.slug.value)
    else if TruthyStr(p.category.name) then KeyString(p.category.name.value)
    else KeyObject
  }

  /** The category key of the current (raw) product; a bare string has no slug or name. */
  function CurrentCategoryKey(current: RawProduct): (k: KeyValue)
    ensures k.KeyUndefined? <==> current.category.Undefined?
    ensures k.KeyNull? <==> current.category.Null?
    ensures current.category.Str? ==> k == KeyString(current.category.s)
    ensures current.category.Ref? ==> k == CategoryKey(NormalizeProduct(current))
  {
    match current.category
    case Undefined => KeyUndefined
    case Null => KeyNull
    case Str(s) => KeyString(s)
    case Ref(_, name, slug) =>
      if TruthyStr(slug) then KeyString(slug.value)
      else if TruthyStr(name) then KeyString(name.value)
      else KeyObject
  }

  predicate SameCategory(current: RawProduct, p: Product) {
    StrictEqual(CategoryKey(p), CurrentCategoryKey(current))
  }

  /** `p._id !== product._id && p.id !== product.id`, with `undefined === undefined`. */
  predicate NotCurrent(current: RawProduct, p: Product) {
    UnderscoreId(p) != current._id && p.id != current.id
  }

  /** The filter test of the related list. */
  predicate IsRelated(current: RawProduct, p: Product) {
    SameCategory(current, p) && NotCurrent(current, p)
  }

  /**
   * The related products shown: the first three listed products with the
   * current product's category key that pass the id test, in fetch order.
   */
  function RelatedProducts(all: seq<Product>, current: RawProduct): (r: seq<Product>)
    ensures var matches := Filter(p => IsRelated(current, p), all);
            |r| == (if |matches| < RelatedLimit then |matches| else RelatedLimit) && r == matches[..|r|]
    ensures |r| <= RelatedLimit
    ensures forall p :: p in r ==> p in all
    ensures forall p :: p in r ==>
      CategoryKey(p).KeyString? && CategoryKey(p) == CurrentCategoryKey(current)
    ensures forall p :: p in r ==> p.id != current.id && current._id.Some?
  {
    Take(Filter(p => IsRelated(current, p), all), RelatedLimit)
  }

  /**
   * Products fetched later never displace earlier matches: the related list
   * of a longer list extends the related list of its prefix, up to three.
   */
  lemma RelatedInFetchOrder(all: seq<Product>, more: seq<Product>, current: RawProduct)
    ensures var r := RelatedProducts(all, current);
            var r' := RelatedProducts(all + more, current);
            |r| <= |r'| && r'[..|r|] == r
  {
    FilterAppend(p => IsRelated(current, p), all, more);
  }

  /** A related product is exactly one that passes the test among the first three matches. */
  lemma {:induction false} RelatedMembers(all: seq<Product>, current: RawProduct, p: Product)
    requires p in all && IsRelated(current, p)
    requires |Filter(q => IsRelated(current, q), all)| <= RelatedLimit
    ensures p in RelatedProducts(all, current)
  {
    FilterKeeps(q => IsRelated(current, q), all, p);
  }

  /**
   * As written, a current product without an `_id` has no related products:
   * `p._id` of a listed product is `undefined` too, so `p._id !== product._id`
   * fails for every candidate.
   */
  lemma {:induction false} NoUnderscoreIdNoRelated(all: seq<Product>, current: RawProduct)
    requires current._id.None?
    ensures Filter(p => IsRelated(current, p), all) == []
    ensures RelatedProducts(all, current) == []
  {
    if all != [] {
      NoUnderscoreIdNoRelated(all[1..], current);
    }
  }

  /**
   * As written, the id test excludes nothing when the current product comes
   * from `fetchProductById` (an `_id` and no `id`) and every listed product
   * comes from `fetchProducts` with an id: the related list is just the first
   * three products of the same category.
   */
  lemma {:induction false} IdTestExcludesNothing(all: seq<Product>, current: RawProduct)
    requires current._id.Some? && current.id.None?
    requires forall p :: p in all ==> p.id.Some?
    ensures RelatedProducts(all, current) == Take(Filter(p => SameCategory(current, p), all), RelatedLimit)
  {
    FilterCongruent(p => IsRelated(current, p), p => SameCategory(current, p), all);
  }

  /**
   * As written, the current product is not excluded: the normalised form of
   * the very payload the details page shows passes the related test whenever
   * its category object has a truthy slug or name.
   */
  lemma CurrentProductIsNotExcluded(current: RawProduct)
    requires current._id.Some? && current.id.None?
    requires current.category.Ref? && (TruthyStr(current.category.slug) || TruthyStr(current.category.name))
    ensures IsRelated(current, NormalizeProduct(current))
    ensures RelatedProducts([NormalizeProduct(current)], current) == [NormalizeProduct(current)]
  {
    assert Filter(p => IsRelated(current, p), [NormalizeProduct(current)])
        == [NormalizeProduct(current)] + Filter(p => IsRelated(current, p), []);
  }

  /** The thumbnail links to `rp._id || rp.id`, which for a listed product is its `id`. */
  function RelatedThumbnail(rp: Product): (f: Fragment)
    ensures f.RelatedCard? && f.link == rp.id
    ensures f.image == rp.image && f.name == rp.name && f.classes == RelatedClasses
  {
    RelatedCard(OrStr(UnderscoreId(rp), rp.id), rp.image, rp.name, RelatedClasses)
  }

  /** The related container's final children: the placeholder when nothing is related. */
  function RelatedChildren(display: seq<Product>): (r: seq<Fragment>)
    ensures |display| == 0 ==> r == [Placeholder(NoRelatedText)]
    ensures |display| > 0 ==> |r| == |display|
    ensures |display| > 0 ==>
      forall i :: 0 <= i < |display| ==> r[i] == RelatedCard(display[i].id, display[i].image, display[i].name, RelatedClasses)
  {
    if |display| == 0 then [Placeholder(NoRelatedText)] else Map(RelatedThumbnail, display)
  }

  // ----- details page: regions -----

  /** The page regions the details page fills, each looked up independently. */
  datatype Region =
    | BreadcrumbTitle | BreadcrumbText | ProductName | ProductDescription
    | ProductCategory | ProductDate | ImageSrc | ImageAlt

  /** The regions set before `product.category.name` is read. */
  predicate SetBeforeCategory(r: Region) {
    r.BreadcrumbTitle? || r.BreadcrumbText? || r.ProductName? || r.ProductDescription?
  }

  /** `product.category.name`: a string has no `name`; a nullish category throws and never gets here. */
  function CategoryName(c: RawCategoryField): Option<string> {
    match c
    case Ref(_, name, _) => name
    case _ => None
  }

  /** The text each region receives. The formatted date is an input (date formatting is not modelled). */
  function RegionText(r: Region, product: RawProduct, formattedDate: string): Option<string> {
    match r
    case BreadcrumbTitle => product.name
    case BreadcrumbText => product.name
    case ProductName => product.name
    case ProductDescription => product.description
    case ProductCategory => CategoryName(product.category)
    case ProductDate => Some(formattedDate)
    case ImageSrc => product.image
    case ImageAlt => product.name
  }

  /** Reading `product.category.name` throws when the category region exists and the category is nullish. */
  predicate ThrowsAtCategory(regions: map<Region, Option<string>>, product: RawProduct) {
    ProductCategory in regions && IsNullish(product.category)
  }

  /**
   * The product details page: its title, the regions present on it (with
   * their text) and the related-products container, if any.
   */
  class DetailsPage {
    var title: string
    var regions: map<Region, Option<string>>
    const related: Container?

    constructor (title: string, regions: map<Region, Option<string>>, related: Container?)
      ensures this.title == title && this.regions == regions && this.related == related
    {
      this.title := title;
      this.regions := regions;
      this.related := related;
    }

    /** `if (element) { element.textContent = text; }` for one region. */
    method SetRegion(r: Region, text: Option<string>)
      modifies this
      ensures regions.Keys == old(regions).Keys
      ensures forall k :: k in regions ==> regions[k] == if k == r then text else old(regions)[k]
      ensures title == old(title)
    {
      if r in regions {
        regions := regions[r := text];
      }
    }
  }

  /** The regions set before the category is read, in source order. */
  method FillLeadingRegions(page: DetailsPage, product: RawProduct, formattedDate: string)
    modifies page
    ensures page.title == old(page.title)
    ensures page.regions.Keys == old(page.regions).Keys
    ensures forall r :: r in page.regions ==>
      page.regions[r] == if SetBeforeCategory(r) then RegionText(r, product, formattedDate) else old(page.regions)[r]
  {
    page.SetRegion(BreadcrumbTitle, product.name);
    page.SetRegion(BreadcrumbText, product.name);
    page.SetRegion(ProductName, product.name);
    page.SetRegion(ProductDescription, product.description);
  }

  /** The regions set from the category on, in source order, once reading the category cannot throw. */
  method FillTrailingRegions(page: DetailsPage, product: RawProduct, formattedDate: string)
    requires !ThrowsAtCategory(page.regions, product)
    modifies page
    ensures page.title == old(page.title)
    ensures page.regions.Keys == old(page.regions).Keys
    ensures forall r :: r in page.regions ==>
      page.regions[r] == if SetBeforeCategory(r) then old(page.regions)[r] else RegionText(r, product, formattedDate)
  {
    page.SetRegion(ProductCategory, CategoryName(product.category));
    page.SetRegion(ProductDate, Some(formattedDate));
    page.SetRegion(ImageSrc, product.image);
    page.SetRegion(ImageAlt, product.name);
  }

  /**
   * The region updates of the details page, in source order. Returns whether
   * reading `product.category.name` threw, in which case the regions after
   * it keep their text.
   */
  method FillRegions(page: DetailsPage, product: RawProduct, formattedDate: string) returns (threw: bool)
    modifies page
    ensures threw == ThrowsAtCategory(old(page.regions), product)
    ensures page.title == old(page.title)
    ensures page.regions.Keys == old(page.regions).Keys
    ensures forall r :: r in page.regions ==>
      page.regions[r] == if !threw || SetBeforeCategory(r) then RegionText(r, product, formattedDate)
                         else old(page.regions)[r]
  {
    FillLeadingRegions(page, product, formattedDate);
    threw := ThrowsAtCategory(page.regions, product);
    if threw {
      // the TypeError propagates to the catch at the end of the initializer
      return;
    }
    FillTrailingRegions(page, product, formattedDate);
  }

  /** The related-products block: clear, append each thumbnail, then the placeholder if there were none. */
  method RenderRelated(container: Container, display: seq<Product>)
    modifies container
    ensures container.children == RelatedChildren(display)
  {
    container.Clear();
    container.AppendEach(RelatedThumbnail, display);
    if |display| == 0 {
      container.ReplaceWith(Placeholder(NoRelatedText));
    }
  }

  /**
   * `initializeProductDetailsPage`. Without a truthy `id` parameter, or when
   * the product lookup yields nothing, the page is left as it was. Otherwise
   * the title and every present region are set in order; if reading the
   * category name throws, the regions after it and the related products are
   * left as they were. The related container, when present, ends up holding
   * the related thumbnails, or only the placeholder when there are none.
   */
  method InitializeProductDetailsPage(
    page: DetailsPage, productId: Option<string>, productResp: Response<Option<RawProduct>>,
    productsResp: ListResponse<RawProduct>, formattedDate: string)
    modifies page, page.related
    ensures !TruthyStr(productId) || FetchProductById(productResp).None? ==>
      unchanged(page) && (page.related != null ==> unchanged(page.related))
    ensures TruthyStr(productId) && FetchProductById(productResp).Some? ==>
      var product := FetchProductById(productResp).value;
      var throws := ThrowsAtCategory(old(page.regions), product);
      page.title == Interpolate(product.name) + " - Gardenic" &&
      page.regions.Keys == old(page.regions).Keys &&
      (forall r :: r in page.regions ==>
        page.regions[r] == if !throws || SetBeforeCategory(r) then RegionText(r, product, formattedDate)
                           else old(page.regions)[r]) &&
      (page.related != null && throws ==> unchanged(page.related)) &&
      (page.related != null && !throws ==>
        page.related.children == RelatedChildren(RelatedProducts(FetchProducts(productsResp, None), product)))
  {
    if !TruthyStr(productId) {
      return;
    }
    var found := FetchProductById(productResp);
    if found.None? {
      return;
    }
    var product := found.value;
    page.title := Interpolate(product.name) + " - Gardenic";
    var threw := FillRegions(page, product, formattedDate);
    if threw {
      return;
    }
    if page.related != null {
      var all := FetchProducts(productsResp, None);
      RenderRelated(page.related, RelatedProducts(all, product));
    }
  }
}
