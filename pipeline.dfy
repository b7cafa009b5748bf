/**
 * Response assembly in `extract_metadata`: the domain and base URL derived
 * from the final URL, the four extractors, the consolidator, the favicon and
 * the response dict. The fetch is outside the model: its outcome (the final
 * URL, that URL's scheme and netloc as `urlparse` splits them, and the parsed
 * document) is the input.
 */
module Pipeline {
  import opened Wrappers
  import opened Json
  import opened Text
  import opened Maps
  import opened Document
  import opened Errors
  import opened Extractors
  import opened Favicon
  import opened Consolidator

  /** The dict `extract_metadata` returns, one field per key. */
  datatype MetadataResponse = MetadataResponse(
    url: string,
    domain: string,
    title: Json,
    description: Json,
    image: Json,
    siteName: Json,
    pageType: Json,
    author: Json,
    lang: Json,
    canonicalUrl: Json,
    favicon: string,
    openGraph: Option<map<string, string>>,
    twitterCard: Option<map<string, string>>,
    schemaOrg: Option<map<string, Json>>)

  /** `netloc.replace("www.", "")`: every `www.` is removed, not only a leading one. */
  function DomainOf(netloc: string): (domain: string)
    ensures |domain| <= |netloc|
  {
    RemoveAll(netloc, "www.")
  }

  /** `f"{scheme}://{domain}"`. */
  function BaseUrl(scheme: string, domain: string): (url: string)
    ensures |url| == |scheme| + 3 + |domain|
    ensures url[..|scheme|] == scheme && url[|scheme|..|scheme| + 3] == "://" && url[|scheme| + 3..] == domain
  {
    scheme + "://" + domain
  }

  /** `d if d else None`: an empty dict is reported as None. */
  function NoneIfEmpty<V>(d: map<string, V>): (r: Option<map<string, V>>)
    ensures r.None? <==> d == map[]
    ensures r.Some? ==> r.value == d
  {
    if d == map[] then None else Some(d)
  }

  /** The response dict built from the extractor dicts, the consolidated dict and the favicon. */
  function Assemble(finalUrl: string, domain: string, c: Consolidated, favicon: string,
                    og: map<string, string>, twitter: map<string, string>, schema: map<string, Json>): (r: MetadataResponse)
    ensures r.url == finalUrl && r.domain == domain && r.favicon == favicon
    ensures r.title == c.title && r.description == c.description && r.image == c.image && r.siteName == c.siteName
    ensures r.author == c.author && r.lang == c.lang && r.canonicalUrl == c.canonicalUrl
    ensures r.pageType == Null
    ensures (r.openGraph.None? <==> og == map[]) && (r.openGraph.Some? ==> r.openGraph.value == og)
    ensures (r.twitterCard.None? <==> twitter == map[]) && (r.twitterCard.Some? ==> r.twitterCard.value == twitter)
    ensures (r.schemaOrg.None? <==> schema == map[]) && (r.schemaOrg.Some? ==> r.schemaOrg.value == schema)
  {
    MetadataResponse(
      finalUrl, domain, c.title, c.description, c.image, c.siteName,
      /* `consolidated.get("type")`: the consolidator never sets "type" */ Null,
      c.author, c.lang, c.canonicalUrl, favicon,
      NoneIfEmpty(og), NoneIfEmpty(twitter), NoneIfEmpty(schema))
  }

  /**
   * What `extract_metadata` returns once the page is fetched: the response
   * dict, or the exception an extractor or the consolidator raises.
   */
  function ResponseOf(finalUrl: string, scheme: string, netloc: string, doc: seq<Element>,
                      parse: string -> Option<Json>, join: (string, string) -> string): (r: Result<MetadataResponse, Error>)
    ensures r.Failure? <==>
              (exists i :: 0 <= i < |doc| && IsTextless(doc[i]))
              || AuthorOf(BasicOf(doc), Merge(BlocksOf(doc, parse))).Failure?
    ensures r.Success? ==>
              && r.value.url == finalUrl
              && r.value.domain == DomainOf(netloc)
              && r.value.pageType == Null
              && r.value.favicon == FaviconOf(doc, BaseUrl(scheme, DomainOf(netloc)), join)
              && r.value.openGraph == NoneIfEmpty(PrefixedOf(doc, "property", "og:"))
              && r.value.twitterCard == NoneIfEmpty(PrefixedOf(doc, "name", "twitter:"))
              && r.value.schemaOrg == NoneIfEmpty(Merge(BlocksOf(doc, parse)))
    ensures r.Success? ==>
              var c := Consolidate(BasicOf(doc), PrefixedOf(doc, "property", "og:"), PrefixedOf(doc, "name", "twitter:"),
                                   Merge(BlocksOf(doc, parse)), DomainOf(netloc));
              && c.Success?
              && r.value.title == c.value.title
              && r.value.description == c.value.description
              && r.value.image == c.value.image
              && r.value.siteName == c.value.siteName
              && r.value.author == c.value.author
              && r.value.lang == c.value.lang
              && r.value.canonicalUrl == c.value.canonicalUrl
  {
    var domain := DomainOf(netloc);
    var basic := BasicOf(doc);
    var og := PrefixedOf(doc, "property", "og:");
    var twitter := PrefixedOf(doc, "name", "twitter:");
    match SchemaOf(doc, parse)
    case Failure(e) => Failure(e)
    case Success(schema) =>
      match Consolidate(basic, og, twitter, schema, domain)
      case Failure(e) => Failure(e)
      case Success(c) =>
        Success(Assemble(finalUrl, domain, c, FaviconOf(doc, BaseUrl(scheme, domain), join), og, twitter, schema))
  }

  /** `extract_metadata` after `fetch_page`: run the extractors in order, consolidate, resolve the favicon. */
  method ExtractMetadata(finalUrl: string, scheme: string, netloc: string, doc: seq<Element>,
                         parse: string -> Option<Json>, join: (string, string) -> string)
    returns (r: Result<MetadataResponse, Error>)
    ensures r == ResponseOf(finalUrl, scheme, netloc, doc, parse, join)
  {
    var domain := DomainOf(netloc);
    var baseUrl := BaseUrl(scheme, domain);
    var basic := ExtractBasic(doc);
    var og := ExtractOpenGraph(doc);
    var twitter := ExtractTwitterCard(doc);
    var schemaResult := ExtractSchemaOrg(doc, parse);
    if schemaResult.Failure? {
      return Failure(schemaResult.error);
    }
    var schema := schemaResult.value;
    var consolidated := Consolidate(basic, og, twitter, schema, domain);
    if consolidated.Failure? {
      return Failure(consolidated.error);
    }
    var favicon := ExtractFavicon(doc, baseUrl, join);
    r := Success(Assemble(finalUrl, domain, consolidated.value, favicon, og, twitter, schema));
  }

  // ---------------------------------------------------------------------------
  // Properties of the assembly

  /** A netloc without `www.` is the domain as it stands. */
  lemma DomainKeepsPlainNetloc(netloc: string)
    requires !Occurs(netloc, "www.")
    ensures DomainOf(netloc) == netloc
  {
    RemoveAllAbsent(netloc, "www.");
  }

  /** A leading `www.` is dropped from a netloc that has no other `www.`. */
  lemma DomainDropsLeadingWww(rest: string)
    requires !Occurs(rest, "www.")
    ensures DomainOf("www." + rest) == rest
  {
    RemoveAllLeading("www.", rest);
  }

  /** Every `www.` is dropped, wherever it stands: the text on each side loses its own `www.`s. */
  lemma DomainDropsEveryWww(before: string, after: string)
    ensures DomainOf(before + "www." + after) == DomainOf(before) + DomainOf(after)
  {
    assert "www."[..3] == "www";
    LastUniqueNoSelfOverlap("www.");
    RemoveAllConcat(before, "www.", after);
  }

  /** A `www.` in the middle of the netloc is removed as well, as in `shop.www.example.com`. */
  lemma DomainDropsInnerWww(before: string, after: string)
    requires !Occurs(before, "www.") && !Occurs(after, "www.")
    ensures DomainOf(before + "www." + after) == before + after
  {
    DomainDropsEveryWww(before, after);
    DomainKeepsPlainNetloc(before);
    DomainKeepsPlainNetloc(after);
  }

  /**
   * A page with no elements at all: every consolidated field is None except
   * the image, which is the bare domain URL, and the site name, which comes
   * from the domain; the favicon is the default one; the three dialect dicts
   * are None.
   */
  lemma EmptyPageResponse(finalUrl: string, scheme: string, netloc: string,
                          parse: string -> Option<Json>, join: (string, string) -> string)
    ensures var r := ResponseOf(finalUrl, scheme, netloc, [], parse, join);
            var domain := DomainOf(netloc);
            && r.Success?
            && r.value.title == Null && r.value.description == Null
            && r.value.image == Str("https://" + domain)
            && r.value.siteName == DomainSiteName(domain)
            && r.value.author == Null && r.value.lang == Null && r.value.canonicalUrl == Null
            && r.value.favicon == join(BaseUrl(scheme, domain), "/favicon.ico")
            && r.value.openGraph.None? && r.value.twitterCard.None? && r.value.schemaOrg.None?
  {
    var doc: seq<Element> := [];
    var domain := DomainOf(netloc);
    assert BasicOf(doc) == NoBasicMetadata by {
      FindFirst(doc, ByTag("title"));
    }
    assert PrefixedOf(doc, "property", "og:") == map[] by {
      assert EntriesOf(doc, "property", "og:") == [];
    }
    assert PrefixedOf(doc, "name", "twitter:") == map[] by {
      assert EntriesOf(doc, "name", "twitter:") == [];
    }
    assert SchemaOf(doc, parse) == Success(map[]) by {
      assert BlocksOf(doc, parse) == [];
    }
    ConsolidateEmpty(domain);
    FaviconWithoutLinks(doc, BaseUrl(scheme, domain), join);
  }
}
