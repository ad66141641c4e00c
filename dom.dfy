/**
 * The page side of every renderer: a container element whose children are
 * fragments, each fragment a record of the display fields a renderer writes
 * into its markup (markup text itself is not modelled).
 */
module Dom {
  import opened Js
  import opened Seqs

  datatype Fragment =
    /** A product tile: link target id, image, name, caption and CSS classes. */
    | ProductCard(link: Option<string>, image: Option<string>, name: Option<string>, caption: string, classes: seq<string>)
    /** A related-product thumbnail on the details page. */
    | RelatedCard(link: Option<string>, image: Option<string>, name: Option<string>, classes: seq<string>)
    /** The fixed "All Products" filter button (`data-filter="*"`). */
    | AllProductsFilter
    /** A category filter button: its `data-filter`, the category name and the count shown. */
    | CategoryFilter(filter: string, name: Option<string>, count: int)
    /** A certificate tile; the lightbox link points at the image. */
    | CertificateCard(image: Option<string>, name: Option<string>, description: Option<string>,
                      lightboxHref: Option<string>, classes: seq<string>)
    /** A team member tile with its three contact links. */
    | MemberCard(image: Option<string>, name: Option<string>, position: Option<string>,
                 mailHref: string, telHref: string, whatsappHref: string, classes: seq<string>)
    /** A single paragraph of text. */
    | Placeholder(text: string)

  /** A container element: its children, in document order. */
  class Container {
    var children: seq<Fragment>

    constructor (initial: seq<Fragment>)
      ensures children == initial
    {
      children := initial;
    }

    /** `innerHTML = ''`. */
    method Clear()
      modifies this
      ensures children == []
    {
      children := [];
    }

    /** `appendChild(fragment)`. */
    method Append(f: Fragment)
      modifies this
      ensures children == old(children) + [f]
    {
      children := children + [f];
    }

    /** `innerHTML = <one fixed piece of markup>`. */
    method ReplaceWith(f: Fragment)
      modifies this
      ensures children == [f]
    {
      children := [f];
    }

    /** `items.forEach(item => container.appendChild(render(item)))`. */
    method AppendEach<T>(render: T -> Fragment, items: seq<T>)
      modifies this
      ensures children == old(children) + Map(render, items)
    {
      var i := 0;
      while i < |items|
        invariant 0 <= i <= |items|
        invariant children == old(children) + Map(render, items[..i])
      {
        Append(render(items[i]));
        assert Map(render, items[..i + 1]) == Map(render, items[..i]) + [render(items[i])];
        i := i + 1;
      }
      assert items[..i] == items;
    }
  }
}
