/**
 * The navigation bar's context: a constant table of links, and for each
 * request a copy of every link marked "active" when the request's path
 * belongs to that link's section. The home link (`/`) is active on `/`
 * only; every other link is active when the path starts with its href.
 * The hrefs are those the URL table gives with the application mounted at
 * the site root.
 */
module Navbar {

  /** One entry of the link table; `caption` is the link's "label" key. */
  datatype Link = Link(caption: string, href: string, icon: string)

  /** A link copied for one request, with the added "active" flag. */
  datatype Entry = Entry(caption: string, href: string, icon: string, active: bool)

  const Home := "/"

  const Links: seq<Link> := [
    Link("Home", Home, "bi bi-house-door"),
    Link("Clientes", "/clientes/", "bi bi-people"),
    Link("Veterinarios", "/vets/", "bi bi-bag"),
    Link("Proveedores", "/providers/", "bi bi-person-badge"),
    Link("Productos", "/products/", "bi bi-box-seam"),
    Link("Mascotas", "/pets/", "bi bi-heart"),
    Link("Medicinas", "/medicines/", "bi bi-capsule")
  ]

  /** Is the link's section the one the path is in? */
  predicate IsActive(href: string, path: string) {
    if href == Home then path == Home else href <= path
  }

  /** `add_active`: a copy of the link with its "active" flag. */
  function AddActive(link: Link, path: string): (e: Entry)
    ensures e.caption == link.caption && e.href == link.href && e.icon == link.icon
    ensures e.active == IsActive(link.href, path)
  {
    Entry(link.caption, link.href, link.icon, IsActive(link.href, path))
  }

  /** `navbar`: `add_active` applied to every link, in order. */
  function NavbarFor(links: seq<Link>, path: string): (entries: seq<Entry>)
    ensures |entries| == |links|
    ensures forall i :: 0 <= i < |links| ==>
      && entries[i].caption == links[i].caption
      && entries[i].href == links[i].href
      && entries[i].icon == links[i].icon
      && (entries[i].active <==> IsActive(links[i].href, path))
  {
    seq(|links|, i requires 0 <= i < |links| => AddActive(links[i], path))
  }

  /** The context the navigation bar is rendered from, for the request's path. */
  function NavbarContext(path: string): (entries: seq<Entry>)
    ensures |entries| == |Links|
  {
    NavbarFor(Links, path)
  }

  /** No href other than home is a prefix of another one. */
  ghost predicate PrefixFree(links: seq<Link>) {
    forall i, j :: 0 <= i < |links| && 0 <= j < |links| && i != j
      && links[i].href != Home && links[j].href != Home
      ==> !(links[i].href <= links[j].href)
  }

  /** Two prefixes of one path: the shorter is a prefix of the longer. */
  lemma PrefixesNest(a: string, b: string, path: string)
    requires a <= path && b <= path && |a| <= |b|
    ensures a <= b
  {
  }

  /**
   * When no section href is a prefix of another, at most one non-home link
   * is active on any path.
   */
  lemma AtMostOneSectionActive(links: seq<Link>, path: string, i: int, j: int)
    requires PrefixFree(links)
    requires 0 <= i < |links| && 0 <= j < |links|
    requires links[i].href != Home && links[j].href != Home
    requires NavbarFor(links, path)[i].active && NavbarFor(links, path)[j].active
    ensures i == j
  {
  }

  lemma {:induction false} LinksPrefixFree()
    ensures PrefixFree(Links)
  {
    forall i, j | 0 <= i < |Links| && 0 <= j < |Links| && i != j
      && Links[i].href != Home && Links[j].href != Home
      ensures !(Links[i].href <= Links[j].href)
    {
      var a, b := Links[i].href, Links[j].href;
      if |a| <= |b| {
        // Any two section hrefs differ at index 1, 2 or 4 ("/pets/" and
        // "/products/" at 2, "/products/" and "/providers/" at 4).
        assert a[1] != b[1] || a[2] != b[2] || a[4] != b[4];
      }
    }
  }

  /** The home entry is active exactly on the path `/`, inactive on every other path. */
  lemma HomeActiveIff(path: string)
    ensures NavbarContext(path)[0].href == Home
    ensures NavbarContext(path)[0].active <==> path == Home
  {
  }

  /** Every section entry is active exactly when the path starts with its href. */
  lemma SectionActiveIff(path: string, i: int)
    requires 1 <= i < |Links|
    ensures NavbarContext(path)[i].href != Home
    ensures NavbarContext(path)[i].active <==> Links[i].href <= path
  {
  }

  /** On `/` the home entry is the only active one. */
  lemma OnlyHomeActiveAtRoot(i: int)
    requires 0 <= i < |Links|
    ensures NavbarContext(Home)[i].active <==> i == 0
  {
  }

  /** On any path at most one section entry (other than home) is active. */
  lemma AtMostOneLinkActive(path: string, i: int, j: int)
    requires 1 <= i < |Links| && 1 <= j < |Links|
    requires NavbarContext(path)[i].active && NavbarContext(path)[j].active
    ensures i == j
  {
    LinksPrefixFree();
    AtMostOneSectionActive(Links, path, i, j);
  }
}
