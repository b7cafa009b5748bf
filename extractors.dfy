/**
 * The four field extractors: basic HTML tags, Open Graph, Twitter Card and
 * Schema.org JSON-LD. Each one scans the document and builds a dict step by
 * step; each method is proved to build the dict its specification function
 * describes.
 */
module Extractors {
  import opened Wrappers
  import opened Json
  import opened Text
  import opened Maps
  import opened Document
  import opened Errors

  // ---------------------------------------------------------------------------
  // Basic HTML metadata

  /**
   * The dict `extract_basic_metadata` returns. Its keys are six fixed names,
   * each of which may be missing, so each is an optional field here.
   * `canonicalUrl` holds `Str(href)`, or `Null` for a canonical link without href.
   */
  datatype BasicMetadata = BasicMetadata(
    title: Option<string>,
    description: Option<string>,
    lang: Option<string>,
    author: Option<string>,
    canonicalUrl: Option<Json>,
    image: Option<string>
  )

  const NoBasicMetadata := BasicMetadata(None, None, None, None, None, None)

  /** `<title>` text, stripped. */
  function BasicTitle(doc: seq<Element>): (r: Option<string>)
    ensures r.Some? <==> Find(doc, ByTag("title")).Some?
  {
    match Find(doc, ByTag("title"))
    case Some(t) => Some(Strip(t.text))
    case None => None
  }

  /** `content` of the first `<meta name=...>`, stripped, "" when it has none. */
  function NamedMetaContent(doc: seq<Element>, name: string): (r: Option<string>)
    ensures r.Some? <==> Find(doc, ByAttr("meta", "name", name)).Some?
  {
    match Find(doc, ByAttr("meta", "name", name))
    case Some(t) => Some(Strip(AttrOr(t, "content", "")))
    case None => None
  }

  /** `lang` of the first `<html>`, only when non-empty. */
  function BasicLang(doc: seq<Element>): (r: Option<string>)
    ensures r.Some? ==> r.value != ""
  {
    match Find(doc, ByTag("html"))
    case Some(h) =>
      (match Attr(h, "lang")
       case Some(lang) => if lang != "" then Some(lang) else None
       case None => None)
    case None => None
  }

  /** Raw `href` of the first `<link rel="canonical">`, None when it has none. */
  function BasicCanonical(doc: seq<Element>): (r: Option<Json>)
    ensures r.Some? ==> r.value.Str? || r.value.Null?
    ensures r.Some? <==> Find(doc, ByAttr("link", "rel", "canonical")).Some?
  {
    match Find(doc, ByAttr("link", "rel", "canonical"))
    case Some(t) =>
      (match Attr(t, "href")
       case Some(href) => Some(Str(href))
       case None => Some(Null))
    case None => None
  }

  /** Stripped `og:image` meta content if that tag exists, else the first `<img>`'s `src` if non-empty. */
  function BasicImage(doc: seq<Element>): (r: Option<string>)
    ensures r == Some("") ==> Find(doc, ByAttr("meta", "property", "og:image")).Some?
  {
    match Find(doc, ByAttr("meta", "property", "og:image"))
    case Some(t) => Some(Strip(AttrOr(t, "content", "")))
    case None =>
      match Find(doc, ByTag("img"))
      case Some(img) =>
        (match Attr(img, "src")
         case Some(src) => if src != "" then Some(src) else None
         case None => None)
      case None => None
  }

  /** What `extract_basic_metadata` returns for `doc`. */
  function BasicOf(doc: seq<Element>): (r: BasicMetadata)
    ensures r.title.Some? <==> Find(doc, ByTag("title")).Some?
    ensures r.description.Some? <==> Find(doc, ByAttr("meta", "name", "description")).Some?
    ensures r.author.Some? <==> Find(doc, ByAttr("meta", "name", "author")).Some?
    ensures r.lang.Some? ==> r.lang.value != ""
    ensures r.canonicalUrl.Some? <==> Find(doc, ByAttr("link", "rel", "canonical")).Some?
    ensures r.image == Some("") ==> Find(doc, ByAttr("meta", "property", "og:image")).Some?
  {
    BasicMetadata(
      BasicTitle(doc), NamedMetaContent(doc, "description"), BasicLang(doc),
      NamedMetaContent(doc, "author"), BasicCanonical(doc), BasicImage(doc))
  }

  /** `extract_basic_metadata`: the six conditional insertions, in the source's order. */
  method ExtractBasic(doc: seq<Element>) returns (metadata: BasicMetadata)
    ensures metadata == BasicOf(doc)
  {
    var title := ExtractTitle(doc);
    var description := ExtractNamedMeta(doc, "description");
    var lang := ExtractLang(doc);
    var author := ExtractNamedMeta(doc, "author");
    var canonicalUrl := ExtractCanonical(doc);
    var image := ExtractImage(doc);
    metadata := BasicMetadata(title, description, lang, author, canonicalUrl, image);
  }

  /** The title insertion: the `<title>` text, stripped, when the tag exists. */
  method ExtractTitle(doc: seq<Element>) returns (title: Option<string>)
    ensures title == BasicTitle(doc)
  {
    title := None;
    var titleTag := Find(doc, ByTag("title"));
    if titleTag.Some? {
      title := Some(Strip(titleTag.value.text));
    }
  }

  /** The description and author insertions: the meta tag's content, stripped, when the tag exists. */
  method ExtractNamedMeta(doc: seq<Element>, name: string) returns (content: Option<string>)
    ensures content == NamedMetaContent(doc, name)
  {
    content := None;
    var metaTag := Find(doc, ByAttr("meta", "name", name));
    if metaTag.Some? {
      content := Some(Strip(AttrOr(metaTag.value, "content", "")));
    }
  }

  /** The lang insertion: only a non-empty `lang` of the `<html>` tag. */
  method ExtractLang(doc: seq<Element>) returns (lang: Option<string>)
    ensures lang == BasicLang(doc)
  {
    lang := None;
    var htmlTag := Find(doc, ByTag("html"));
    if htmlTag.Some? {
      var htmlLang := Attr(htmlTag.value, "lang");
      if htmlLang.Some? && htmlLang.value != "" {
        lang := htmlLang;
      }
    }
  }

  /** The canonical insertion: the raw `href`, None when the link has none. */
  method ExtractCanonical(doc: seq<Element>) returns (canonicalUrl: Option<Json>)
    ensures canonicalUrl == BasicCanonical(doc)
  {
    canonicalUrl := None;
    var canonicalTag := Find(doc, ByAttr("link", "rel", "canonical"));
    if canonicalTag.Some? {
      var href := Attr(canonicalTag.value, "href");
      canonicalUrl := Some(if href.Some? then Str(href.value) else Null);
    }
  }

  /** The image insertion: the `og:image` content, stripped, else the first `<img>`'s non-empty `src`. */
  method ExtractImage(doc: seq<Element>) returns (image: Option<string>)
    ensures image == BasicImage(doc)
  {
    image := None;
    var imageTag := Find(doc, ByAttr("meta", "property", "og:image"));
    if imageTag.Some? {
      image := Some(Strip(AttrOr(imageTag.value, "content", "")));
    } else {
      var firstImg := Find(doc, ByTag("img"));
      if firstImg.Some? {
        var src := Attr(firstImg.value, "src");
        if src.Some? && src.value != "" {
          image := src;
        }
      }
    }
  }

  /**
   * A `description` or `author` key is present exactly when a matching meta
   * tag exists, and then holds the first such tag's content, stripped.
   */
  lemma NamedMetaFromFirstTag(doc: seq<Element>, name: string)
    ensures NamedMetaContent(doc, name).Some? <==>
              exists i :: 0 <= i < |doc| && Matches(doc[i], ByAttr("meta", "name", name))
    ensures forall i :: FirstMatchAt(doc, ByAttr("meta", "name", name), i) ==>
              NamedMetaContent(doc, name) == Some(Strip(AttrOr(doc[i], "content", "")))
  {
    var sel := ByAttr("meta", "name", name);
    FindFirst(doc, sel);
    forall i | FirstMatchAt(doc, sel, i)
      ensures NamedMetaContent(doc, name) == Some(Strip(AttrOr(doc[i], "content", "")))
    {
      FindAt(doc, sel, i);
    }
  }

  /** The title is present exactly when a `<title>` exists, and is then the first one's text, stripped. */
  lemma BasicTitleFromFirstTag(doc: seq<Element>)
    ensures BasicTitle(doc).Some? <==> exists i :: 0 <= i < |doc| && Matches(doc[i], ByTag("title"))
    ensures forall i :: FirstMatchAt(doc, ByTag("title"), i) ==> BasicTitle(doc) == Some(Strip(doc[i].text))
  {
    var sel := ByTag("title");
    FindFirst(doc, sel);
    forall i | FirstMatchAt(doc, sel, i)
      ensures BasicTitle(doc) == Some(Strip(doc[i].text))
    {
      FindAt(doc, sel, i);
    }
  }

  /**
   * The language is the first `<html>` tag's `lang` when that is non-empty,
   * and absent otherwise; later `<html>` tags are never consulted.
   */
  lemma BasicLangFromFirstHtmlTag(doc: seq<Element>)
    ensures forall i :: FirstMatchAt(doc, ByTag("html"), i) ==>
              BasicLang(doc) == (if AttrOr(doc[i], "lang", "") != "" then Some(doc[i].attrs["lang"]) else None)
    ensures (forall i :: 0 <= i < |doc| ==> !Matches(doc[i], ByTag("html"))) ==> BasicLang(doc).None?
  {
    var sel := ByTag("html");
    FindFirst(doc, sel);
    forall i | FirstMatchAt(doc, sel, i)
      ensures BasicLang(doc) == (if AttrOr(doc[i], "lang", "") != "" then Some(doc[i].attrs["lang"]) else None)
    {
      FindAt(doc, sel, i);
    }
  }

  /** The canonical URL is the first canonical link's raw href, or None when that link has no href. */
  lemma BasicCanonicalFromFirstLink(doc: seq<Element>)
    ensures BasicCanonical(doc).Some? <==> exists i :: 0 <= i < |doc| && Matches(doc[i], ByAttr("link", "rel", "canonical"))
    ensures forall i :: FirstMatchAt(doc, ByAttr("link", "rel", "canonical"), i) ==>
              BasicCanonical(doc) == Some(if "href" in doc[i].attrs then Str(doc[i].attrs["href"]) else Null)
  {
    var sel := ByAttr("link", "rel", "canonical");
    FindFirst(doc, sel);
    forall i | FirstMatchAt(doc, sel, i)
      ensures BasicCanonical(doc) == Some(if "href" in doc[i].attrs then Str(doc[i].attrs["href"]) else Null)
    {
      FindAt(doc, sel, i);
    }
  }

  /** A page with neither an `og:image` meta tag nor an `<img>` gets no image. */
  lemma BasicImageWithoutSources(doc: seq<Element>)
    requires forall j :: 0 <= j < |doc| ==> !Matches(doc[j], ByAttr("meta", "property", "og:image"))
    requires forall j :: 0 <= j < |doc| ==> !Matches(doc[j], ByTag("img"))
    ensures BasicImage(doc) == None
  {
    FindFirst(doc, ByAttr("meta", "property", "og:image"));
    FindFirst(doc, ByTag("img"));
  }

  /** With an `og:image` meta tag, the image is its stripped content, whatever `<img>` tags follow. */
  lemma BasicImageFromOgTag(doc: seq<Element>, i: int)
    requires FirstMatchAt(doc, ByAttr("meta", "property", "og:image"), i)
    ensures BasicImage(doc) == Some(Strip(AttrOr(doc[i], "content", "")))
  {
    FindAt(doc, ByAttr("meta", "property", "og:image"), i);
  }

  /**
   * Without an `og:image` meta tag, only the first `<img>` is looked at: its
   * `src` when non-empty, otherwise no image, even if a later `<img>` has one.
   */
  lemma BasicImageFromFirstImg(doc: seq<Element>, i: int)
    requires forall j :: 0 <= j < |doc| ==> !Matches(doc[j], ByAttr("meta", "property", "og:image"))
    requires FirstMatchAt(doc, ByTag("img"), i)
    ensures BasicImage(doc) == if AttrOr(doc[i], "src", "") != "" then Some(doc[i].attrs["src"]) else None
  {
    FindFirst(doc, ByAttr("meta", "property", "og:image"));
    FindAt(doc, ByTag("img"), i);
  }

  // ---------------------------------------------------------------------------
  // Open Graph and Twitter Card: `<meta attr="prefix...">` tags

  /** Selected by `find_all("meta", attrs={attr: re.compile("^" + prefix)})`. */
  predicate IsPrefixedMeta(e: Element, attr: string, prefix: string)
  {
    e.tag == "meta" && attr in e.attrs && StartsWith(e.attrs[attr], prefix)
  }

  /** A selected tag whose attribute and content are both non-empty adds one entry. */
  predicate Contributes(e: Element, attr: string, prefix: string)
  {
    IsPrefixedMeta(e, attr, prefix) && AttrOr(e, attr, "") != "" && AttrOr(e, "content", "") != ""
  }

  /** The key: the attribute with every occurrence of the prefix removed. */
  function KeyOf(e: Element, attr: string, prefix: string): string
  {
    RemoveAll(AttrOr(e, attr, ""), prefix)
  }

  /** The entry one tag adds: none, or its key mapped to its content. */
  function EntryOf(e: Element, attr: string, prefix: string): map<string, string>
  {
    if Contributes(e, attr, prefix) then map[KeyOf(e, attr, prefix) := AttrOr(e, "content", "")] else map[]
  }

  function EntriesOf(doc: seq<Element>, attr: string, prefix: string): (es: seq<map<string, string>>)
    ensures |es| == |doc| && forall i :: 0 <= i < |doc| ==> es[i] == EntryOf(doc[i], attr, prefix)
  {
    seq(|doc|, i requires 0 <= i < |doc| => EntryOf(doc[i], attr, prefix))
  }

  /** The dialect dict: the entries of the tags, later ones overwriting earlier ones. */
  function PrefixedOf(doc: seq<Element>, attr: string, prefix: string): (r: map<string, string>)
    ensures forall k :: k in r ==> r[k] != ""
  {
    var es := EntriesOf(doc, attr, prefix);
    EntriesValuesNonEmpty(es);
    Merge(es)
  }

  /** No entry maps a key to an empty content, so neither does their merge. */
  lemma EntriesValuesNonEmpty(es: seq<map<string, string>>)
    requires forall i, k :: 0 <= i < |es| && k in es[i] ==> es[i][k] != ""
    ensures forall k :: k in Merge(es) ==> Merge(es)[k] != ""
  {
    forall k | k in Merge(es)
      ensures Merge(es)[k] != ""
    {
      MergeValueFrom(es, k);
    }
  }

  /** The loop of `extract_open_graph` and `extract_twitter_card`. */
  method ExtractPrefixed(doc: seq<Element>, attr: string, prefix: string) returns (data: map<string, string>)
    ensures data == PrefixedOf(doc, attr, prefix)
  {
    data := map[];
    for i := 0 to |doc|
      invariant data == PrefixedOf(doc[..i], attr, prefix)
    {
      var tag := doc[i];
      ghost var before := data;
      if IsPrefixedMeta(tag, attr, prefix) {
        var name := AttrOr(tag, attr, "");
        var content := AttrOr(tag, "content", "");
        if name != "" && content != "" {
          data := data[RemoveAll(name, prefix) := content];
        }
      }
      assert data == before + EntryOf(tag, attr, prefix);
      PrefixedOfSnoc(doc, i, attr, prefix);
    }
    assert doc[..|doc|] == doc;
  }

  /** One more tag updates the dialect dict with its entry. */
  lemma PrefixedOfSnoc(doc: seq<Element>, i: int, attr: string, prefix: string)
    requires 0 <= i < |doc|
    ensures PrefixedOf(doc[..i + 1], attr, prefix) == PrefixedOf(doc[..i], attr, prefix) + EntryOf(doc[i], attr, prefix)
  {
    assert EntriesOf(doc[..i + 1], attr, prefix) == EntriesOf(doc[..i], attr, prefix) + [EntryOf(doc[i], attr, prefix)];
    MergeSnoc(EntriesOf(doc[..i], attr, prefix), EntryOf(doc[i], attr, prefix));
  }

  /** `extract_open_graph`: `og:` properties. */
  method ExtractOpenGraph(doc: seq<Element>) returns (og: map<string, string>)
    ensures og == PrefixedOf(doc, "property", "og:")
  {
    og := ExtractPrefixed(doc, "property", "og:");
  }

  /** `extract_twitter_card`: `twitter:` names. */
  method ExtractTwitterCard(doc: seq<Element>) returns (twitter: map<string, string>)
    ensures twitter == PrefixedOf(doc, "name", "twitter:")
  {
    twitter := ExtractPrefixed(doc, "name", "twitter:");
  }

  /** A key is in the dialect dict exactly when some contributing tag yields it. */
  lemma PrefixedKeys(doc: seq<Element>, attr: string, prefix: string, k: string)
    ensures k in PrefixedOf(doc, attr, prefix) <==>
            exists i :: 0 <= i < |doc| && Contributes(doc[i], attr, prefix) && KeyOf(doc[i], attr, prefix) == k
  {
    var es := EntriesOf(doc, attr, prefix);
    MergeKeys(es, k);
    if exists j :: 0 <= j < |es| && k in es[j] {
      var j :| 0 <= j < |es| && k in es[j];
      assert Contributes(doc[j], attr, prefix) && KeyOf(doc[j], attr, prefix) == k;
    }
    if exists i :: 0 <= i < |doc| && Contributes(doc[i], attr, prefix) && KeyOf(doc[i], attr, prefix) == k {
      var i :| 0 <= i < |doc| && Contributes(doc[i], attr, prefix) && KeyOf(doc[i], attr, prefix) == k;
      assert k in es[i];
    }
  }

  /** For a duplicate key the last contributing tag wins. */
  lemma PrefixedLastWins(doc: seq<Element>, attr: string, prefix: string, i: int)
    requires 0 <= i < |doc| && Contributes(doc[i], attr, prefix)
    requires forall l :: i < l < |doc| && Contributes(doc[l], attr, prefix) ==>
               KeyOf(doc[l], attr, prefix) != KeyOf(doc[i], attr, prefix)
    ensures var k := KeyOf(doc[i], attr, prefix);
            k in PrefixedOf(doc, attr, prefix) && PrefixedOf(doc, attr, prefix)[k] == AttrOr(doc[i], "content", "")
  {
    var es := EntriesOf(doc, attr, prefix);
    MergeLastWins(es, KeyOf(doc[i], attr, prefix), i);
  }

  /** A tag with empty content adds nothing, wherever it stands. */
  lemma PrefixedSkipsEmptyContent(before: seq<Element>, e: Element, after: seq<Element>, attr: string, prefix: string)
    requires AttrOr(e, "content", "") == ""
    ensures PrefixedOf(before + [e] + after, attr, prefix) == PrefixedOf(before + after, attr, prefix)
  {
    var l, r := EntriesOf(before, attr, prefix), EntriesOf(after, attr, prefix);
    assert EntriesOf(before + [e] + after, attr, prefix) == l + [map[]] + r;
    assert EntriesOf(before + after, attr, prefix) == l + r;
    MergeSkipsEmpty(l, r);
  }

  /** Neither dialect prefix can overlap itself. */
  lemma DialectPrefixesDoNotOverlap()
    ensures NoSelfOverlap("og:") && NoSelfOverlap("twitter:")
  {
    assert "og:"[..2] == "og";
    LastUniqueNoSelfOverlap("og:");
    assert "twitter:"[..7] == "twitter";
    LastUniqueNoSelfOverlap("twitter:");
  }

  /**
   * The key drops every occurrence of the prefix, not only a leading one:
   * around any occurrence, each side loses its own occurrences.
   */
  lemma KeyDropsEveryPrefix(e: Element, attr: string, prefix: string, before: string, after: string)
    requires prefix == "og:" || prefix == "twitter:"
    requires AttrOr(e, attr, "") == before + prefix + after
    ensures KeyOf(e, attr, prefix) == RemoveAll(before, prefix) + RemoveAll(after, prefix)
  {
    DialectPrefixesDoNotOverlap();
    RemoveAllConcat(before, prefix, after);
  }

  /** A property with the prefix twice, such as `og:image:og:alt`, is stored under `image:alt`. */
  lemma OpenGraphRepeatedPrefix(e: Element, first: string, second: string)
    requires !Occurs(first, "og:") && !Occurs(second, "og:")
    requires AttrOr(e, "property", "") == "og:" + first + "og:" + second
    ensures KeyOf(e, "property", "og:") == first + second
  {
    assert "og:" + first + "og:" + second == ("og:" + first) + "og:" + second;
    KeyDropsEveryPrefix(e, "property", "og:", "og:" + first, second);
    RemoveAllLeading("og:", first);
    RemoveAllAbsent(second, "og:");
  }

  /** An `og:title` tag with content "T" is stored under "title". */
  lemma OpenGraphKeyExample(doc: seq<Element>)
    requires |doc| == 1 && doc[0] == Element("meta", map["property" := "og:title", "content" := "T"], "", None)
    ensures PrefixedOf(doc, "property", "og:") == map["title" := "T"]
  {
    var e := doc[0];
    assert "og:" + "title" == "og:title";
    FirstCharAbsent("title", "og:");
    RemoveAllLeading("og:", "title");
    assert AttrOr(e, "property", "") == "og:title";
    assert AttrOr(e, "content", "") == "T";
    assert StartsWith("og:title", "og:");
    assert KeyOf(e, "property", "og:") == "title";
    assert EntryOf(e, "property", "og:") == map["title" := "T"];
    var es := EntriesOf(doc, "property", "og:");
    assert es == [map["title" := "T"]];
    MergeSnoc([], map["title" := "T"]);
    assert [] + [map["title" := "T"]] == es;
  }

  // ---------------------------------------------------------------------------
  // Schema.org JSON-LD

  /** Selected by `find_all("script", type="application/ld+json")`. */
  predicate IsJsonLd(e: Element)
  {
    e.tag == "script" && Attr(e, "type") == Some("application/ld+json")
  }

  /** A JSON-LD script whose `.string` is None: `json.loads(None)` raises. */
  predicate IsTextless(e: Element)
  {
    IsJsonLd(e) && e.soleString.None?
  }

  /** The dict elements of a JSON array, in array order. */
  function ObjectsIn(items: seq<Json>): (os: seq<map<string, Json>>)
    ensures |os| <= |items|
  {
    if items == [] then []
    else
      var last := items[|items| - 1];
      ObjectsIn(items[..|items| - 1]) + (if last.Obj? then [last.fields] else [])
  }

  /** What one script block contributes: a dict, its array's dicts merged in order, or nothing. */
  function BlockOf(e: Element, parse: string -> Option<Json>): (r: map<string, Json>)
    ensures r != map[] ==>
              && IsJsonLd(e) && e.soleString.Some?
              && parse(e.soleString.value).Some?
              && (parse(e.soleString.value).value.Obj? || parse(e.soleString.value).value.Arr?)
  {
    if !IsJsonLd(e) || e.soleString.None? then map[]
    else
      match parse(e.soleString.value)
      case Some(Obj(fields)) => fields
      case Some(Arr(items)) => Merge(ObjectsIn(items))
      case _ => map[]
  }

  function BlocksOf(doc: seq<Element>, parse: string -> Option<Json>): (bs: seq<map<string, Json>>)
    ensures |bs| == |doc| && forall i :: 0 <= i < |doc| ==> bs[i] == BlockOf(doc[i], parse)
  {
    seq(|doc|, i requires 0 <= i < |doc| => BlockOf(doc[i], parse))
  }

  /**
   * The Schema.org dict: the blocks merged in document order, or the
   * TypeError of `json.loads(None)` when a JSON-LD script has no text.
   */
  function SchemaOf(doc: seq<Element>, parse: string -> Option<Json>): (r: Result<map<string, Json>, Error>)
    ensures r.Failure? ==> r.error == JsonLoadsOfNone
  {
    if exists i :: 0 <= i < |doc| && IsTextless(doc[i]) then Failure(JsonLoadsOfNone)
    else Success(Merge(BlocksOf(doc, parse)))
  }

  /** Every key of the Schema.org dict comes from the block of some script of the page. */
  lemma SchemaKeysFromScripts(doc: seq<Element>, parse: string -> Option<Json>, k: string)
    requires SchemaOf(doc, parse).Success? && k in SchemaOf(doc, parse).value
    ensures exists i :: 0 <= i < |doc| && k in BlockOf(doc[i], parse)
  {
    MergeKeys(BlocksOf(doc, parse), k);
  }

  /** The inner loop of `extract_schema_org`: update with each dict of an array, in order. */
  method UpdateWithObjects(schema: map<string, Json>, items: seq<Json>) returns (updated: map<string, Json>)
    ensures updated == schema + Merge(ObjectsIn(items))
  {
    updated := schema;
    for j := 0 to |items|
      invariant updated == schema + Merge(ObjectsIn(items[..j]))
    {
      assert items[..j + 1][..j] == items[..j];
      assert items[..j + 1][j] == items[j];
      if items[j].Obj? {
        updated := updated + items[j].fields;
        assert ObjectsIn(items[..j + 1]) == ObjectsIn(items[..j]) + [items[j].fields];
        MergeSnoc(ObjectsIn(items[..j]), items[j].fields);
        UnionAssoc(schema, Merge(ObjectsIn(items[..j])), items[j].fields);
      } else {
        assert ObjectsIn(items[..j + 1]) == ObjectsIn(items[..j]) + [];
        assert ObjectsIn(items[..j]) + [] == ObjectsIn(items[..j]);
      }
    }
    assert items[..|items|] == items;
  }

  /**
   * `extract_schema_org`. `parse` is `json.loads` on a string: None when the
   * text is not valid JSON (the JSONDecodeError the loop catches).
   */
  method ExtractSchemaOrg(doc: seq<Element>, parse: string -> Option<Json>) returns (r: Result<map<string, Json>, Error>)
    ensures r == SchemaOf(doc, parse)
  {
    var schema: map<string, Json> := map[];
    for i := 0 to |doc|
      invariant schema == Merge(BlocksOf(doc[..i], parse))
      invariant forall j :: 0 <= j < i ==> !IsTextless(doc[j])
    {
      var updated := UpdateWithScript(schema, doc[i], parse);
      if updated.Failure? {
        SchemaFailsAt(doc, parse, i);
        return updated;
      }
      schema := updated.value;
      MergedBlocksSnoc(doc, i, parse);
    }
    assert doc[..|doc|] == doc;
    SchemaSucceedsWithText(doc, parse);
    return Success(schema);
  }

  /** A textless JSON-LD script anywhere makes the extraction fail. */
  lemma SchemaFailsAt(doc: seq<Element>, parse: string -> Option<Json>, i: int)
    requires 0 <= i < |doc| && IsTextless(doc[i])
    ensures SchemaOf(doc, parse) == Failure(JsonLoadsOfNone)
  {
  }

  /** With no textless script, the extraction gives the merged blocks. */
  lemma SchemaSucceedsWithText(doc: seq<Element>, parse: string -> Option<Json>)
    requires forall j :: 0 <= j < |doc| ==> !IsTextless(doc[j])
    ensures SchemaOf(doc, parse) == Success(Merge(BlocksOf(doc, parse)))
  {
  }

  /** The body of the script loop: `json.loads` of the script's text and the update it leads to. */
  method UpdateWithScript(schema: map<string, Json>, script: Element, parse: string -> Option<Json>)
    returns (updated: Result<map<string, Json>, Error>)
    ensures IsTextless(script) ==> updated == Failure(JsonLoadsOfNone)
    ensures !IsTextless(script) ==> updated == Success(schema + BlockOf(script, parse))
  {
    if !IsJsonLd(script) {
      assert schema + BlockOf(script, parse) == schema;
      return Success(schema);
    }
    if script.soleString.None? {
      return Failure(JsonLoadsOfNone);
    }
    var data := parse(script.soleString.value);
    if data.Some? && data.value.Obj? {
      return Success(schema + data.value.fields);
    } else if data.Some? && data.value.Arr? {
      var merged := UpdateWithObjects(schema, data.value.items);
      return Success(merged);
    }
    assert schema + BlockOf(script, parse) == schema;
    return Success(schema);
  }

  /** One more script updates the merged blocks with its block. */
  lemma MergedBlocksSnoc(doc: seq<Element>, i: int, parse: string -> Option<Json>)
    requires 0 <= i < |doc|
    ensures Merge(BlocksOf(doc[..i + 1], parse)) == Merge(BlocksOf(doc[..i], parse)) + BlockOf(doc[i], parse)
  {
    assert BlocksOf(doc[..i + 1], parse) == BlocksOf(doc[..i], parse) + [BlockOf(doc[i], parse)];
    MergeSnoc(BlocksOf(doc[..i], parse), BlockOf(doc[i], parse));
  }

  /** Extraction fails exactly when some JSON-LD script has no text. */
  lemma SchemaFailsOnlyOnTextless(doc: seq<Element>, parse: string -> Option<Json>)
    ensures SchemaOf(doc, parse).Failure? <==> exists i :: 0 <= i < |doc| && IsTextless(doc[i])
  {
  }

  /** For a key defined by several blocks, the later block wins. */
  lemma SchemaLaterBlockWins(doc: seq<Element>, parse: string -> Option<Json>, i: int, k: string)
    requires SchemaOf(doc, parse).Success?
    requires 0 <= i < |doc| && k in BlockOf(doc[i], parse)
    requires forall l :: i < l < |doc| ==> k !in BlockOf(doc[l], parse)
    ensures k in SchemaOf(doc, parse).value && SchemaOf(doc, parse).value[k] == BlockOf(doc[i], parse)[k]
  {
    MergeLastWins(BlocksOf(doc, parse), k, i);
  }

  /** Within an array block, the later dict wins. */
  lemma {:induction false} ArrayLaterObjectWins(items: seq<Json>, i: int, k: string)
    requires 0 <= i < |items| && items[i].Obj? && k in items[i].fields
    requires forall l :: i < l < |items| && items[l].Obj? ==> k !in items[l].fields
    ensures k in Merge(ObjectsIn(items)) && Merge(ObjectsIn(items))[k] == items[i].fields[k]
  {
    var before, after := items[..i], items[i + 1..];
    var pre, post := ObjectsIn(before), ObjectsIn(after);
    var f := items[i].fields;
    assert k !in Merge(post) by {
      forall l | 0 <= l < |after| && after[l].Obj?
        ensures k !in after[l].fields
      {
        assert after[l] == items[i + 1 + l];
      }
      ObjectsInNoKey(after, k);
    }
    assert ObjectsIn(items) == (pre + [f]) + post by {
      assert items == before + [items[i]] + after;
      ObjectsInConcat(before + [items[i]], after);
      ObjectsInConcat(before, [items[i]]);
      assert ObjectsIn([items[i]]) == [f] by {
        assert [items[i]][..0] == [];
      }
    }
    MergeAppend(pre + [f], post);
    MergeSnoc(pre, f);
  }

  /** The dicts of a concatenation are the dicts of each part, in order. */
  lemma {:induction false} ObjectsInConcat(left: seq<Json>, right: seq<Json>)
    ensures ObjectsIn(left + right) == ObjectsIn(left) + ObjectsIn(right)
    decreases |right|
  {
    if right == [] {
      assert left + right == left;
    } else {
      var init, last := right[..|right| - 1], right[|right| - 1];
      assert (left + right)[..|left + right| - 1] == left + init;
      assert (left + right)[|left + right| - 1] == last;
      ObjectsInConcat(left, init);
    }
  }

  /** A key that no dict element of the array defines is not in their merge. */
  lemma ObjectsInNoKey(items: seq<Json>, k: string)
    requires forall m :: 0 <= m < |items| && items[m].Obj? ==> k !in items[m].fields
    ensures k !in Merge(ObjectsIn(items))
  {
    if k in Merge(ObjectsIn(items)) {
      ObjectsInKeys(items, k);
      assert false;
    }
  }

  /** A key of the merged dicts comes from some dict element of the array. */
  lemma {:induction false} ObjectsInKeys(items: seq<Json>, k: string)
    requires k in Merge(ObjectsIn(items))
    ensures exists m :: 0 <= m < |items| && items[m].Obj? && k in items[m].fields
    decreases |items|
  {
    var init, last := items[..|items| - 1], items[|items| - 1];
    if last.Obj? {
      MergeSnoc(ObjectsIn(init), last.fields);
      if k !in last.fields {
        ObjectsInKeys(init, k);
        var m :| 0 <= m < |init| && init[m].Obj? && k in init[m].fields;
        assert items[m] == init[m];
      }
    } else {
      assert ObjectsIn(items) == ObjectsIn(init) + [];
      assert ObjectsIn(init) + [] == ObjectsIn(init);
      ObjectsInKeys(init, k);
      var m :| 0 <= m < |init| && init[m].Obj? && k in init[m].fields;
      assert items[m] == init[m];
    }
  }

  lemma BlocksOfConcat(left: seq<Element>, right: seq<Element>, parse: string -> Option<Json>)
    ensures BlocksOf(left + right, parse) == BlocksOf(left, parse) + BlocksOf(right, parse)
  {
  }

  /** A block whose text is not valid JSON is skipped without affecting the others. */
  lemma SchemaSkipsMalformed(before: seq<Element>, e: Element, after: seq<Element>, parse: string -> Option<Json>)
    requires IsJsonLd(e) && e.soleString.Some? && parse(e.soleString.value).None?
    ensures SchemaOf(before + [e] + after, parse) == SchemaOf(before + after, parse)
  {
    var doc, doc' := before + [e] + after, before + after;
    var l, r := BlocksOf(before, parse), BlocksOf(after, parse);
    BlocksOfConcat(before + [e], after, parse);
    BlocksOfConcat(before, [e], parse);
    BlocksOfConcat(before, after, parse);
    assert BlocksOf([e], parse) == [map[]];
    MergeSkipsEmpty(l, r);
    assert Merge(BlocksOf(doc, parse)) == Merge(BlocksOf(doc', parse));
    TextlessAfterSkip(before, e, after);
  }

  /** Removing a script that has text keeps the set of textless scripts. */
  lemma TextlessAfterSkip(before: seq<Element>, e: Element, after: seq<Element>)
    requires !IsTextless(e)
    ensures (exists i :: 0 <= i < |before + [e] + after| && IsTextless((before + [e] + after)[i]))
        <==> (exists i :: 0 <= i < |before + after| && IsTextless((before + after)[i]))
  {
    var doc, doc' := before + [e] + after, before + after;
    if exists i :: 0 <= i < |doc| && IsTextless(doc[i]) {
      var i :| 0 <= i < |doc| && IsTextless(doc[i]);
      if i < |before| { assert doc'[i] == doc[i]; } else { assert doc'[i - 1] == doc[i]; }
    }
    if exists i :: 0 <= i < |doc'| && IsTextless(doc'[i]) {
      var i :| 0 <= i < |doc'| && IsTextless(doc'[i]);
      if i < |before| { assert doc[i] == doc'[i]; } else { assert doc[i + 1] == doc'[i]; }
    }
  }
}
