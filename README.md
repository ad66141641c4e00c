# Gardenic site integration scripts — a Dafny model

The Gardenic website loads its content from a backend API and writes it into
static pages. This project models the browser scripts that do that:

- `api-services.js`: the data-access functions. `fetchCategories`,
  `fetchProducts`, `fetchProductById`, `fetchCertificates`, `fetchTeam` and
  `fetchContact` each turn the API envelope `{success, data, message}` into
  the records the pages use. `sendMessage` posts a message and resolves or
  rejects.
- `products-integration.js`: the home page's Recent Work section, the
  products page with its category filter buttons, and the product details
  page with its related products.
- `certificates-integration.js`: the certificate grid. Only active
  certificates are shown, and each gets a style class looked up from its
  category tag.
- `team-integration.js`: the team section. Only active members are shown,
  each with mail, phone and WhatsApp links. A carousel starts for more than
  three members.
- `contact-integration.js`: contact details written into the footer and the
  contact page, the contact form and the footer subscription form.

Modules, one file each:

- `Js` (`js.dfy`) covers the JavaScript value rules the scripts rely on.
  `undefined` properties are `Option`. There are truthiness predicates, `||`
  on strings, and the text of `${x}`.
- `Seqs` (`seqs.dfy`) holds `filter`, `map` and `slice(0, n)`.
- `ApiServices` (`api_services.dfy`) holds the accessors. What the network
  and `response.json()` deliver is their input `Response`. It is either a
  thrown failure or a parsed envelope. A list payload that is not an array is
  `None`, so `data.map` throws on it.
- `Dom` (`dom.dfy`) describes a container element as a class whose `children`
  field holds fragments. A fragment records the fields a renderer writes into
  its markup. The container's `Clear`, `Append`, `ReplaceWith` and
  `AppendEach` stand for `innerHTML = ''`, `appendChild`, a fixed `innerHTML`
  and a `forEach` of `appendChild`.
- `ProductsIntegration`, `CertificatesIntegration`, `TeamIntegration` and
  `ContactIntegration` hold the page scripts. Each page entity the scripts
  update in place is a class: `Container`, `DetailsPage`, `ContactPage`,
  `ContactForm` and `SubscriptionForm`.

Behaviour the code has as written, proved as lemmas:

- Normalised products carry `id`, not `_id`. So every Recent Work link reads
  `undefined`. The related-products filter compares `p._id` with the current
  product's `_id`, so that filter relies on `undefined !== product._id`:
  - a current product without `_id` gets no related products
    (`NoUnderscoreIdNoRelated`);
  - a current product from `fetchProductById` whose payload carries no `id`
    field is not excluded from its own related list
    (`CurrentProductIsNotExcluded`, `IdTestExcludesNothing`). When the payload
    does carry an `id`, the `p.id !== product.id` test excludes it.
- `fetchProducts` returns `[]` when any one product has a `null` or missing
  category. Reading `product.category._id` throws and the catch swallows the
  error.
- A team member whose `whatsapp` is not a string makes `.replace` throw. The
  render loop stops at that member and the carousel is not started.
- A form missing one of its inputs throws after the submit button was
  disabled, and the button stays disabled. The contact form's button also
  keeps the label "Sending..."; the footer form never changes its label.

## Model

| member | source | states |
|---|---|---|
| Seqs.Filter | assets/js/certificates-integration.js:47 | `filter` keeps only elements that pass the test, and never grows the list |
| Seqs.FilterKeeps | assets/js/team-integration.js:47 | `filter` drops no element that passes the test |
| Seqs.FilterMembers | assets/js/certificates-integration.js:47 | an element is in the filtered list iff it is in the input and passes the test |
| Seqs.FilterAppend | assets/js/api-services.js:62 | filtering a concatenation is the concatenation of the filtered parts, so input order is kept |
| Seqs.FilterCongruent | assets/js/products-integration.js:300-303 | two tests that agree on every element select the same list |
| Seqs.Map | assets/js/api-services.js:139-146 | `map` gives one result per element, at the same index |
| Seqs.Take | assets/js/products-integration.js:39 | `slice(0, n)` is the first `n` elements, or all of them when there are fewer |
| ApiServices.FetchCategories | assets/js/api-services.js:12-32 | on a successful envelope with an array payload, one category per item, in order, fields renamed `_id`→`id`; otherwise (thrown failure, `success` falsy, non-array data) `[]` |
| ApiServices.NormalizedProducts | assets/js/api-services.js:45-58 | one product per item, in order, with `id` from `_id`, a category object read off the raw category (empty for a string), the other fields copied; `[]` when the envelope fails or any item's category is nullish (the map throws) |
| ApiServices.FetchProducts | assets/js/api-services.js:40-74 | without a truthy `categoryId` the normalised list; with one, a product is in the result iff it is a normalised product whose category id is `categoryId`, and the result is no longer than the normalised list (the order is stated by `FetchProductsAppend`) |
| ApiServices.FetchProductsAppend | assets/js/api-services.js:46-65 | the result for a payload split in two is the result for the first part followed by the result for the second: the matches keep the payload order |
| ApiServices.FetchProductsSingle | assets/js/api-services.js:46-65 | one item yields its normalised product when there is no truthy category filter or its category id matches, and nothing otherwise; with the previous lemma and the next one this fixes the result of every successful payload without nullish categories |
| ApiServices.FetchProductsReadsOnlyItems | assets/js/api-services.js:40-74 | two responses with the same items, or both without, give the same result, whatever the envelope's `message` |
| ApiServices.FetchProductById | assets/js/api-services.js:81-95 | the raw `data` payload unchanged on success; `null` on a failure or a falsy `success` |
| ApiServices.FetchCertificates | assets/js/api-services.js:133-155 | on success one certificate per item with all six fields carried over (`_id`→`id`); otherwise `[]` |
| ApiServices.FetchTeam | assets/js/api-services.js:161-185 | on success one member per item with all eight fields carried over; otherwise `[]` |
| ApiServices.FetchContact | assets/js/api-services.js:191-211 | on success one entry per item with `_id`, `type`, `label`, `value` carried over; otherwise `[]` |
| ApiServices.SendMessage | assets/js/api-services.js:218-239 | resolves exactly when the envelope arrived with `success`, with the whole envelope; rejects with `data.message` when truthy, else "Failed to send message"; re-raises a thrown failure's reason |
| Dom.Container.Clear | assets/js/products-integration.js:42 | `innerHTML = ''` leaves no children |
| Dom.Container.Append | assets/js/products-integration.js:68 | `appendChild` adds one child at the end, the others unchanged |
| Dom.Container.ReplaceWith | assets/js/products-integration.js:93 | a fixed `innerHTML` leaves exactly that one child |
| Dom.Container.AppendEach | assets/js/products-integration.js:45-69 | the `forEach`/`appendChild` loop appends one rendered child per item, in order, after the existing children |
| ProductsIntegration.InitializeRecentWorkSection | assets/js/products-integration.js:25-74 | with both elements present the container holds the tiles of the first six fetched products, in fetch order, each link `undefined`; without the section it is untouched |
| ProductsIntegration.RecentCard | assets/js/products-integration.js:49-66 | the home-page tile shows the product's image and name with its category name as caption, and its link reads `product._id`, so it is always `undefined` |
| ProductsIntegration.FilterCount | assets/js/products-integration.js:103 | `productCount \|\| 0` is the count when present, 0 when it is missing |
| ProductsIntegration.CategoryButton | assets/js/products-integration.js:97-106 | a filter button's `data-filter` is `.` followed by the slug, and its label carries the category name and `productCount \|\| 0` |
| ProductsIntegration.ProductClasses | assets/js/products-integration.js:122-128 | the three column classes, followed by the category slug iff the slug is truthy |
| ProductsIntegration.CategoryCaption | assets/js/products-integration.js:143 | `category?.name \|\| 'Uncategorized'`: the name when truthy, else "Uncategorized", never empty |
| ProductsIntegration.ProductsPageCard | assets/js/products-integration.js:130-147 | the products-page tile links to `product.id` (unlike the home-page tile), with the caption and classes above |
| ProductsIntegration.CategoryKey | assets/js/products-integration.js:301 | a listed product's key `slug \|\| name \|\| category` is never `undefined` or `null`: the slug when truthy, else the name when truthy, else the category object |
| ProductsIntegration.CurrentCategoryKey | assets/js/products-integration.js:297 | the current product's key is `undefined` or `null` exactly when its category is, a bare string category is the key itself, and an embedded category gives the key its normalised form would give |
| ProductsIntegration.RenderCategoryFilters | assets/js/products-integration.js:93-107 | the filter list is the "All Products" button followed by one button per category in order, each with filter `.slug`, the name and `productCount \|\| 0` |
| ProductsIntegration.InitializeProductsPage | assets/js/products-integration.js:79-150 | with both containers present the filter list is "All Products" followed by one button per category (`.slug`, name, `productCount \|\| 0`) in order, and the products container holds one tile per fetched product in order; otherwise neither changes |
| ProductsIntegration.RelatedProducts | assets/js/products-integration.js:296-306 | the first min(3, m) of the m listed products that pass the test, in fetch order; hence each has a string category key equal to the current product's, a different `id`, and the current product has an `_id` |
| ProductsIntegration.RelatedInFetchOrder | assets/js/products-integration.js:300-306 | products fetched later never displace earlier matches: the related list of a list extends that of its prefix |
| ProductsIntegration.RelatedMembers | assets/js/products-integration.js:300-306 | when there are at most three matches, every listed product that passes the test is shown |
| ProductsIntegration.NoUnderscoreIdNoRelated | assets/js/products-integration.js:302 | a current product without `_id` gets no related products: no listed product passes the test, since `p._id` is `undefined` too |
| ProductsIntegration.IdTestExcludesNothing | assets/js/products-integration.js:300-303 | for a product from `fetchProductById` (with `_id`, without `id`) against listed products with ids, the related list is just the first three of the same category |
| ProductsIntegration.CurrentProductIsNotExcluded | assets/js/products-integration.js:302 | the current product's own normalised record passes the related test and is shown as related to itself |
| ProductsIntegration.RelatedChildren | assets/js/products-integration.js:308-328 | no related products leaves only the "No related projects found." paragraph; otherwise one thumbnail per product, linking to its `id` |
| ProductsIntegration.RelatedThumbnail | assets/js/products-integration.js:313-322 | the thumbnail link `rp._id \|\| rp.id` is the listed product's `id`, with its image and name |
| ProductsIntegration.DetailsPage.SetRegion | assets/js/products-integration.js:234-237 | a present region gets the new text, an absent one stays absent, nothing else changes |
| ProductsIntegration.FillLeadingRegions | assets/js/products-integration.js:233-253 | breadcrumb title and text, name and description get the product's name and description |
| ProductsIntegration.FillTrailingRegions | assets/js/products-integration.js:255-269 | category, date, image source and alt text are set; the leading regions keep their text |
| ProductsIntegration.FillRegions | assets/js/products-integration.js:233-269 | every present region gets its text, unless the category region exists and the category is nullish, where the regions from the category on keep their text |
| ProductsIntegration.RenderRelated | assets/js/products-integration.js:308-328 | the related container ends up holding exactly the related children |
| ProductsIntegration.InitializeProductDetailsPage | assets/js/products-integration.js:211-335 | without a truthy id or a found product the page is unchanged; otherwise the title is "`name` - Gardenic", the regions as above, and the related container holds the related thumbnails (or the placeholder), left as it was when reading the category threw |
| CertificatesIntegration.CategoryClass | assets/js/certificates-integration.js:54-71 | a category tag known to the table gets its class, any other tag or none gets `''` |
| CertificatesIntegration.CertificateClasses | assets/js/certificates-integration.js:51-75 | the three fixed classes, followed by the category class iff the tag is a known one |
| CertificatesIntegration.CertificateTile | assets/js/certificates-integration.js:77-96 | the tile shows the image, name and description, its lightbox link is the image, and its classes are `CertificateClasses`: the fixed ones plus the looked-up class iff the tag is known |
| CertificatesIntegration.ShownAreExactlyActive | assets/js/certificates-integration.js:47 | a certificate is shown iff it is in the list and its `isActive` is truthy |
| CertificatesIntegration.InactiveAddsNothing | assets/js/certificates-integration.js:46-50 | an inactive certificate anywhere in the list adds no tile and moves no other tile |
| CertificatesIntegration.DisplayCertificates | assets/js/certificates-integration.js:34-132 | without a container nothing happens; otherwise it holds one tile per active certificate in order, and the lightbox and grid start exactly when their libraries are loaded |
| CertificatesIntegration.InitCertificates | assets/js/certificates-integration.js:14-28 | an empty fetched list leaves the container untouched and starts nothing; otherwise as `displayCertificates` |
| TeamIntegration.StripNonDigits | assets/js/team-integration.js:63 | the WhatsApp handle with its non-digits removed: only digits, never longer |
| TeamIntegration.StripNonDigitsAppend | assets/js/team-integration.js:63 | stripping distributes over concatenation, so digits keep their order |
| TeamIntegration.StripNonDigitsKeepsDigitString | assets/js/team-integration.js:63 | a handle of digits only is kept as it is |
| TeamIntegration.StripNonDigitsIdempotent | assets/js/team-integration.js:63 | stripping twice is stripping once |
| TeamIntegration.StripNonDigitsIsDigitFilter | assets/js/team-integration.js:63 | the stripped handle is exactly the handle's digits, in order |
| TeamIntegration.MemberTile | assets/js/team-integration.js:54-75 | the tile links to `mailto:` the email and `tel:` the phone, and to `https://wa.me/` followed by exactly the digits of the handle, in order, with the column classes `col-lg-4 col-md-6` |
| TeamIntegration.RenderablePrefix | assets/js/team-integration.js:50-78 | the number of leading members with a string handle: all of them have one, and the next one does not |
| TeamIntegration.DisplayTeamMembers | assets/js/team-integration.js:34-100 | without a container nothing happens; otherwise it holds the tiles of the active members up to the first one whose handle is not a string, and the carousel starts iff all were rendered, there are more than three and the library is loaded |
| TeamIntegration.InitTeam | assets/js/team-integration.js:14-28 | an empty fetched list leaves the container untouched; otherwise as `displayTeamMembers` |
| ContactIntegration.FindByType | assets/js/contact-integration.js:39-41 | `find` yields an entry of the list that has the type, or none only when no entry has it |
| ContactIntegration.FindByTypeIsFirst | assets/js/contact-integration.js:39-41 | `find` gives an entry of the type with no entry of the type before it, or none when no entry has it |
| ContactIntegration.FindByTypeIsFirstOfFilter | assets/js/contact-integration.js:39-41 | `find` agrees with the head of `filter` by the same test |
| ContactIntegration.FillAll | assets/js/contact-integration.js:47-49 | every element of the list shows the new content |
| ContactIntegration.Link | assets/js/contact-integration.js:62-87 | an email or phone link is `mailto:` or `tel:` followed by the value, showing the value |
| ContactIntegration.DisplayContactInfo | assets/js/contact-integration.js:37-92 | the first address, email and phone entries fill every footer element and the contact-page element of their kind (email and phone as `mailto:`/`tel:` links); a kind with no entry leaves its elements as they were; the recipient handed on is the email value or `''` |
| ContactIntegration.InitContact | assets/js/contact-integration.js:17-31 | with a non-empty fetched list the footer and contact-page elements are filled as `displayContactInfo` fills them and the recipient is handed on; with an empty list the page is unchanged |
| ContactIntegration.ContactMessageOf | assets/js/contact-integration.js:116-130 | the message fields come from the inputs by name, `phone` from the input named "Subject", and `recipientEmail \|\| ''` |
| ContactIntegration.ContactForm.Submit | assets/js/contact-integration.js:103-131 | the button is disabled and shows "Sending...", its label saved; with every input present the message is sent, otherwise nothing is sent and the form is stuck |
| ContactIntegration.ContactForm.Resolve | assets/js/contact-integration.js:133-150 | success alerts and resets the form, failure alerts only; in both cases a present button gets its saved label back and is enabled |
| ContactIntegration.HandleContactSubmit | assets/js/contact-integration.js:103-151 | a whole submission: the message is sent iff every input is present; the form is reset exactly when `sendMessage` resolves; a present button ends enabled with its old label, or disabled on "Sending..." when an input is missing |
| ContactIntegration.SubscriptionForm.Submit | assets/js/contact-integration.js:162-178 | the button is disabled; with the email input present `{email, type: 'subscription'}` is sent, otherwise nothing |
| ContactIntegration.SubscriptionForm.Resolve | assets/js/contact-integration.js:181-197 | success alerts and resets the form, failure alerts only; a present button is enabled again |
| ContactIntegration.HandleSubscribe | assets/js/contact-integration.js:162-198 | a whole subscription: the record sent is exactly `{email, type: 'subscription'}` when the input exists; the email input is reset only on success and kept on failure and when the input is missing; a present button ends enabled, or stays disabled when the input is missing |

## Left out

- The network request, headers, `JSON.stringify` and `response.json()` are not modelled. Their outcome is the `Response` input of each accessor.
- `formatDate` and `Date` parsing (`api-services.js:102-112`) are not modelled, because locale date formatting is outside Dafny. The details page takes the formatted date as an input. Products keep `createdAt` as the payload text.
- ProductsIntegration.RecentCard and ProductsIntegration.ProductsPageCard leave the formatted date out of the caption, for the same reason.
- `copyToClipboard` and the share button (`api-services.js:119-127`, `products-integration.js:272-288`) are not modelled, because they use the clipboard API, a click listener and a timer.
- The Isotope, Venobox and Owl Carousel widgets are not modelled: their options, click filtering, layout timers and the Isotope retry every 500 ms. On the certificates and team sections, whether a widget is started is kept as a boolean result, with "library loaded" as an input. The Isotope start on the products page (`products-integration.js:153-201`) is not modelled at all. jQuery's `$` is taken to be present.
- The `load` and `DOMContentLoaded` listeners and the URL path tests that choose which initializer runs are not modelled. Each initializer is modelled as called. The `id` query parameter is an input.
- A missing contact form or footer form is not modelled, because then no handler is registered and nothing happens.
- ContactIntegration.ContactForm.Submit and ContactIntegration.SubscriptionForm.Submit require that no earlier submission is still pending. Interleaving two in-flight submissions of the same form is not modelled, because the promise callbacks run asynchronously.
- Truthiness of `isActive` is modelled only for booleans and absent values. A non-boolean truthy `isActive` counts as false here. The envelope's `success` is modelled directly as its truthiness.
- JSON `null` in a string or id field is not told apart from a missing field: both are `None`. So `${null}` is rendered as "undefined" rather than "null", and `null !== undefined` in the id test of the related products is not modelled.
- Array items that are `null` are not modelled.
- `textContent = undefined` writes the empty string in a browser. The model keeps the `undefined` value (None) in the region instead.
- ProductsIntegration.DetailsPage.SetRegion treats the product image's `src` and `alt` as two regions, even though the page has one image element for both.
