/**
 * The certificates section: active certificates only, each tile tagged with
 * a style class looked up from its category tag.
 */
module CertificatesIntegration {
  import opened Js
  import opened Seqs
  import opened ApiServices
  import opened Dom

  /** The classes every certificate tile starts with. */
  const TileClasses: seq<string> := ["col-md-4", "grid-item", "position-static"]

  /** The category tags the section knows, with the style class each one gets. */
  const CategoryClassTable: map<string, string> :=
    map["driveways" := "physics", "in_progress" := "chemistry", "pathway" := "math", "portfolio" := "english"]

  /** The `switch` on `certificate.category`: a known tag's class, else `''`. */
  function CategoryClass(tag: Option<string>): (cls: string)
    ensures tag.Some? && tag.value in CategoryClassTable ==> cls == CategoryClassTable[tag.value]
    ensures !(tag.Some? && tag.value in CategoryClassTable) ==> cls == ""
  {
    if tag == Some("driveways") then "physics"
    else if tag == Some("in_progress") then "chemistry"
    else if tag == Some("pathway") then "math"
    else if tag == Some("portfolio") then "english"
    else ""
  }

  /**
   * The tile's classes: the fixed ones, then the category class when it is
   * non-empty. An unknown tag leaves exactly the fixed classes.
   */
  function CertificateClasses(c: Certificate): (r: seq<string>)
    ensures |r| == |TileClasses| || |r| == |TileClasses| + 1
    ensures r[..|TileClasses|] == TileClasses
    ensures |r| == |TileClasses| + 1 <==> c.category.Some? && c.category.value in CategoryClassTable
    ensures |r| == |TileClasses| + 1 ==> r[|TileClasses|] == CategoryClassTable[c.category.value]
  {
    var cls := CategoryClass(c.category);
    if cls != "" then TileClasses + [cls] else TileClasses
  }

  /** `cert.isActive` is truthy. */
  predicate IsActive(c: Certificate) {
    TruthyBool(c.isActive)
  }

  /** The tile of one certificate; its lightbox link is the image. */
  function CertificateTile(c: Certificate): (f: Fragment)
    ensures f.CertificateCard? && f.lightboxHref == c.image && f.image == c.image
    ensures f.name == c.name && f.description == c.description
    ensures f.classes == CertificateClasses(c)
    ensures |f.classes| >= |TileClasses| && f.classes[..|TileClasses|] == TileClasses
    ensures |f.classes| > |TileClasses| <==> c.category.Some? && c.category.value in CategoryClassTable
  {
    CertificateCard(c.image, c.name, c.description, c.image, CertificateClasses(c))
  }

  /** The certificates shown are exactly the active ones. */
  lemma ShownAreExactlyActive(certificates: seq<Certificate>)
    ensures forall c :: c in Filter(IsActive, certificates) <==> c in certificates && TruthyBool(c.isActive)
  {
    FilterMembers(IsActive, certificates);
  }

  /** An inactive certificate, wherever it stands, adds no tile and moves no other tile. */
  lemma {:induction false} InactiveAddsNothing(before: seq<Certificate>, c: Certificate, after: seq<Certificate>)
    requires !TruthyBool(c.isActive)
    ensures Filter(IsActive, before + [c] + after) == Filter(IsActive, before) + Filter(IsActive, after)
  {
    FilterAppend(IsActive, before + [c], after);
    FilterAppend(IsActive, before, [c]);
    assert Filter(IsActive, [c]) == [] by {
      assert [c][1..] == [];
    }
  }

  /**
   * `displayCertificates`: without a container nothing happens and no widget
   * starts. Otherwise the container is cleared and then holds one tile per
   * active certificate, in input order; the lightbox and the grid start
   * exactly when their libraries are loaded.
   */
  method DisplayCertificates(container: Container?, certificates: seq<Certificate>, lightboxLoaded: bool, gridLoaded: bool)
    returns (lightbox: bool, grid: bool)
    modifies container
    ensures container == null ==> !lightbox && !grid
    ensures container != null ==>
      container.children == Map(CertificateTile, Filter(IsActive, certificates)) &&
      lightbox == lightboxLoaded && grid == gridLoaded
  {
    if container == null {
      return false, false;
    }
    container.Clear();
    var active := Filter(IsActive, certificates);
    container.AppendEach(CertificateTile, active);
    lightbox, grid := lightboxLoaded, gridLoaded;
  }

  /**
   * `initCertificates`: an empty fetched list leaves the container as it was;
   * otherwise the list is displayed.
   */
  method InitCertificates(container: Container?, resp: ListResponse<RawCertificate>, lightboxLoaded: bool, gridLoaded: bool)
    returns (lightbox: bool, grid: bool)
    modifies container
    ensures |FetchCertificates(resp)| == 0 ==>
      !lightbox && !grid && (container != null ==> unchanged(container))
    ensures |FetchCertificates(resp)| > 0 && container != null ==>
      container.children == Map(CertificateTile, Filter(IsActive, FetchCertificates(resp))) &&
      lightbox == lightboxLoaded && grid == gridLoaded
    ensures container == null ==> !lightbox && !grid
  {
    var certificates := FetchCertificates(resp);
    if |certificates| > 0 {
      lightbox, grid := DisplayCertificates(container, certificates, lightboxLoaded, gridLoaded);
    } else {
      lightbox, grid := false, false;
    }
  }
}
