/**
 * The favicon resolver: four link relations tried in a fixed order, with
 * `/favicon.ico` as the fallback. URL joining is the standard library's
 * `urljoin`, given here as the parameter `join`.
 */
module Favicon {
  import opened Wrappers
  import opened Document

  /** The relations of `link[rel="..."]`, in the order they are tried. */
  const FaviconRels: seq<string> := ["icon", "shortcut icon", "apple-touch-icon", "apple-touch-icon-precomposed"]

  /** The `href` of the FIRST `<link>` with this relation, when it is non-empty; later ones are never looked at. */
  function IconHref(doc: seq<Element>, rel: string): (r: Option<string>)
    ensures r.Some? <==>
              var link := Find(doc, ByAttr("link", "rel", rel));
              link.Some? && Attr(link.value, "href").Some? && Attr(link.value, "href").value != ""
    ensures r.Some? ==> r.value != "" && Attr(Find(doc, ByAttr("link", "rel", rel)).value, "href") == r
  {
    match Find(doc, ByAttr("link", "rel", rel))
    case Some(tag) =>
      (match Attr(tag, "href")
       case Some(href) => if href != "" then Some(href) else None
       case None => None)
    case None => None
  }

  /** Only the first link with a relation counts: when its href is missing or empty, later links with that relation are ignored. */
  lemma FirstLinkOnly(doc: seq<Element>, rel: string, i: int)
    requires FirstMatchAt(doc, ByAttr("link", "rel", rel), i)
    requires AttrOr(doc[i], "href", "") == ""
    ensures IconHref(doc, rel).None?
  {
    FindFirst(doc, ByAttr("link", "rel", rel));
  }

  /** The favicon when `rels` are the relations still to try. */
  function FaviconFrom(doc: seq<Element>, rels: seq<string>, base: string, join: (string, string) -> string): string
  {
    if rels == [] then join(base, "/favicon.ico")
    else
      match IconHref(doc, rels[0])
      case Some(href) => join(base, href)
      case None => FaviconFrom(doc, rels[1..], base, join)
  }

  /** What `extract_favicon` returns. */
  function FaviconOf(doc: seq<Element>, base: string, join: (string, string) -> string): string
  {
    FaviconFrom(doc, FaviconRels, base, join)
  }

  /** `extract_favicon`: the selector loop with its early return. */
  method ExtractFavicon(doc: seq<Element>, base: string, join: (string, string) -> string) returns (favicon: string)
    ensures favicon == FaviconOf(doc, base, join)
  {
    for i := 0 to |FaviconRels|
      invariant FaviconFrom(doc, FaviconRels[i..], base, join) == FaviconOf(doc, base, join)
    {
      var faviconTag := Find(doc, ByAttr("link", "rel", FaviconRels[i]));
      assert FaviconRels[i..][1..] == FaviconRels[i + 1..];
      if faviconTag.Some? && Attr(faviconTag.value, "href").Some? && Attr(faviconTag.value, "href").value != "" {
        return join(base, Attr(faviconTag.value, "href").value);
      }
    }
    return join(base, "/favicon.ico");
  }

  /**
   * The relation at position `k` decides when its first link has an href and
   * every earlier relation's first link has none.
   */
  lemma {:induction false} FaviconFromPicks(doc: seq<Element>, rels: seq<string>, base: string,
                                            join: (string, string) -> string, k: int, href: string)
    requires 0 <= k < |rels| && IconHref(doc, rels[k]) == Some(href)
    requires forall j :: 0 <= j < k ==> IconHref(doc, rels[j]).None?
    ensures FaviconFrom(doc, rels, base, join) == join(base, href)
    decreases k
  {
    if k > 0 {
      assert IconHref(doc, rels[0]).None?;
      FaviconFromPicks(doc, rels[1..], base, join, k - 1, href);
    }
  }

  /** With no relation yielding an href, every relation is skipped. */
  lemma {:induction false} FaviconFromDefault(doc: seq<Element>, rels: seq<string>, base: string,
                                              join: (string, string) -> string)
    requires forall j :: 0 <= j < |rels| ==> IconHref(doc, rels[j]).None?
    ensures FaviconFrom(doc, rels, base, join) == join(base, "/favicon.ico")
    decreases |rels|
  {
    if rels != [] {
      assert IconHref(doc, rels[0]).None?;
      FaviconFromDefault(doc, rels[1..], base, join);
    }
  }

  /** The first relation, in the fixed order, whose first link has an href gives the favicon. */
  lemma FaviconPriority(doc: seq<Element>, base: string, join: (string, string) -> string, k: int, href: string)
    requires 0 <= k < |FaviconRels| && IconHref(doc, FaviconRels[k]) == Some(href)
    requires forall j :: 0 <= j < k ==> IconHref(doc, FaviconRels[j]).None?
    ensures FaviconOf(doc, base, join) == join(base, href)
  {
    FaviconFromPicks(doc, FaviconRels, base, join, k, href);
  }

  /** A page without any `<link>` element gets `/favicon.ico` joined to the base URL. */
  lemma FaviconWithoutLinks(doc: seq<Element>, base: string, join: (string, string) -> string)
    requires forall i :: 0 <= i < |doc| ==> doc[i].tag != "link"
    ensures FaviconOf(doc, base, join) == join(base, "/favicon.ico")
  {
    forall j | 0 <= j < |FaviconRels|
      ensures IconHref(doc, FaviconRels[j]).None?
    {
      FindFirst(doc, ByAttr("link", "rel", FaviconRels[j]));
    }
    FaviconFromDefault(doc, FaviconRels, base, join);
  }
}
