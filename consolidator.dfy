/**
 * `consolidate_metadata`: per-field priority chains over the four extractor
 * dicts and the domain. Each chain is Python's `or`, and two of them sit
 * under a conditional expression, which binds looser than `or`:
 * `a or b or c if cond else d` is `(a or b or c) if cond else d`.
 */
module Consolidator {
  import opened Wrappers
  import opened Json
  import opened Text
  import opened Errors
  import opened Extractors

  /** The consolidated dict; every field is a Python value, None included. */
  datatype Consolidated = Consolidated(
    title: Json,
    description: Json,
    image: Json,
    siteName: Json,
    author: Json,
    lang: Json,
    canonicalUrl: Json
  )

  /** `basic.get(key)` for a basic field that holds a string when present. */
  function StrOrNull(v: Option<string>): Json
  {
    match v
    case Some(s) => Str(s)
    case None => Null
  }

  // ---------------------------------------------------------------------------
  // Title and description

  function TitleCandidates(og: map<string, string>, twitter: map<string, string>,
                           basic: BasicMetadata, schema: map<string, Json>): seq<Json>
  {
    [GetStr(og, "title"), GetStr(twitter, "title"), StrOrNull(basic.title), Get(schema, "name"), Get(schema, "headline")]
  }

  /** Title: the first truthy of OG, Twitter, basic title, Schema name and headline, else the headline as it is. */
  function TitleOf(og: map<string, string>, twitter: map<string, string>,
                   basic: BasicMetadata, schema: map<string, Json>): (r: Json)
    ensures IsOrOf(r, TitleCandidates(og, twitter, basic, schema))
  {
    OrChain(TitleCandidates(og, twitter, basic, schema))
  }

  function DescriptionCandidates(og: map<string, string>, twitter: map<string, string>,
                                 basic: BasicMetadata, schema: map<string, Json>): seq<Json>
  {
    [GetStr(og, "description"), GetStr(twitter, "description"), StrOrNull(basic.description), Get(schema, "description")]
  }

  /** Description: the first truthy of OG, Twitter, basic and Schema description, else Schema's as it is. */
  function DescriptionOf(og: map<string, string>, twitter: map<string, string>,
                         basic: BasicMetadata, schema: map<string, Json>): (r: Json)
    ensures IsOrOf(r, DescriptionCandidates(og, twitter, basic, schema))
  {
    OrChain(DescriptionCandidates(og, twitter, basic, schema))
  }

  // ---------------------------------------------------------------------------
  // Image

  /** `basic.get("image") and basic.get("image").startswith(("http://", "https://"))`. */
  predicate IsAbsoluteImage(basic: BasicMetadata)
  {
    && basic.image.Some? && basic.image.value != ""
    && (StartsWith(basic.image.value, "http://") || StartsWith(basic.image.value, "https://"))
  }

  function ImageCandidates(og: map<string, string>, twitter: map<string, string>,
                           basic: BasicMetadata, schema: map<string, Json>): seq<Json>
  {
    [GetStr(og, "image"), GetStr(twitter, "image"), Get(schema, "image"), StrOrNull(basic.image)]
  }

  /** `f"https://{domain}" + basic.get("image", "").strip()`. */
  function DomainImage(basic: BasicMetadata, domain: string): string
  {
    "https://" + domain + Strip(if basic.image.Some? then basic.image.value else "")
  }

  /**
   * Image: with an absolute http(s) basic image, the first truthy of OG,
   * Twitter, Schema and basic image, which is never empty; otherwise the
   * domain URL followed by the stripped basic image, whatever the other
   * dialects hold.
   */
  function ImageOf(og: map<string, string>, twitter: map<string, string>,
                   basic: BasicMetadata, schema: map<string, Json>, domain: string): (r: Json)
    ensures IsAbsoluteImage(basic) ==> IsOrOf(r, ImageCandidates(og, twitter, basic, schema)) && Truthy(r)
    ensures !IsAbsoluteImage(basic) ==> r == Str(DomainImage(basic, domain))
  {
    if IsAbsoluteImage(basic) then
      var cands := ImageCandidates(og, twitter, basic, schema);
      assert Truthy(cands[3]);
      OrChain(cands)
    else Str(DomainImage(basic, domain))
  }

  // ---------------------------------------------------------------------------
  // Site name

  function SiteNameCandidates(og: map<string, string>, twitter: map<string, string>,
                              publisher: map<string, Json>): seq<Json>
  {
    [GetStr(og, "site_name"), GetStr(twitter, "site"), Get(publisher, "name")]
  }

  /** `domain.split(".")[-2].capitalize() if len(domain.split(".")) > 1 else None`. */
  function DomainSiteName(domain: string): (r: Json)
    ensures r.Null? <==> '.' !in domain
  {
    var labels := Split(domain, '.');
    if |labels| > 1 then Str(Capitalize(labels[|labels| - 2])) else Null
  }

  /**
   * Site name: when Schema's publisher is a dict, the first truthy of OG
   * site_name, Twitter site and publisher name, with no domain fallback;
   * otherwise OG and Twitter are ignored and the name comes from the domain.
   */
  function SiteNameOf(og: map<string, string>, twitter: map<string, string>,
                      schema: map<string, Json>, domain: string): (r: Json)
    ensures Get(schema, "publisher").Obj? ==>
              IsOrOf(r, SiteNameCandidates(og, twitter, Get(schema, "publisher").fields))
    ensures !Get(schema, "publisher").Obj? ==> r == DomainSiteName(domain)
  {
    var publisher := Get(schema, "publisher");
    if publisher.Obj? then OrChain(SiteNameCandidates(og, twitter, publisher.fields))
    else DomainSiteName(domain)
  }

  // ---------------------------------------------------------------------------
  // Author

  /** `schema.get("author")` is a non-empty list whose first element is a dict. */
  predicate AuthorIsObjectList(schema: map<string, Json>)
  {
    var a := Get(schema, "author");
    a.Arr? && |a.items| > 0 && a.items[0].Obj?
  }

  /** `author[0].get("mainEntity")`, for an author list starting with a dict. */
  function MainEntity(schema: map<string, Json>): Json
    requires AuthorIsObjectList(schema)
  {
    Get(Get(schema, "author").items[0].fields, "mainEntity")
  }

  /** The inner conditional expression over Schema's author; fails when `.get` meets a non-dict. */
  function SchemaAuthor(schema: map<string, Json>): (r: Result<Json, Error>)
    ensures r.Failure? <==> AuthorIsObjectList(schema) && !MainEntity(schema).Obj?
    ensures r.Failure? ==> r.error == NoGetAttribute(MainEntity(schema))
    ensures !Get(schema, "author").Obj? && !AuthorIsObjectList(schema) ==> r == Success(Get(schema, "author"))
  {
    var a := Get(schema, "author");
    if a.Obj? then Success(Get(a.fields, "name"))
    else if AuthorIsObjectList(schema) then
      var entity := MainEntity(schema);
      if entity.Obj? then Success(Get(entity.fields, "name")) else Failure(NoGetAttribute(entity))
    else Success(a)
  }

  /**
   * Author: a truthy basic author; else Schema's author name, or the name of
   * its first entry's mainEntity, or the raw Schema author of any type; a
   * falsy outcome becomes None. Fails exactly when the basic author is falsy,
   * Schema's author is a list starting with a dict and that dict's
   * mainEntity is not a dict.
   */
  function AuthorOf(basic: BasicMetadata, schema: map<string, Json>): (r: Result<Json, Error>)
    ensures r.Success? ==> r.value.Null? || Truthy(r.value)
    ensures Truthy(StrOrNull(basic.author)) ==> r == Success(StrOrNull(basic.author))
    ensures r.Failure? <==>
              !Truthy(StrOrNull(basic.author)) && !Get(schema, "author").Obj? &&
              AuthorIsObjectList(schema) && !MainEntity(schema).Obj?
    ensures !Truthy(StrOrNull(basic.author)) && Get(schema, "author").Obj? ==>
              r == Success(OrNone(Get(Get(schema, "author").fields, "name")))
    ensures !Truthy(StrOrNull(basic.author)) && AuthorIsObjectList(schema) && MainEntity(schema).Obj? ==>
              r == Success(OrNone(Get(MainEntity(schema).fields, "name")))
    ensures !Truthy(StrOrNull(basic.author)) && !Get(schema, "author").Obj? && !AuthorIsObjectList(schema) ==>
              r == Success(OrNone(Get(schema, "author")))
  {
    var b := StrOrNull(basic.author);
    if Truthy(b) then Success(b)
    else
      match SchemaAuthor(schema)
      case Success(v) => Success(OrNone(v))
      case Failure(e) => Failure(e)
  }

  // ---------------------------------------------------------------------------
  // The whole record

  /** `consolidate_metadata`: the six fields, or the error the author chain raises. */
  function Consolidate(basic: BasicMetadata, og: map<string, string>, twitter: map<string, string>,
                       schema: map<string, Json>, domain: string): (r: Result<Consolidated, Error>)
    ensures r.Failure? <==> AuthorOf(basic, schema).Failure?
    ensures r.Success? ==>
              && r.value.title == TitleOf(og, twitter, basic, schema)
              && r.value.description == DescriptionOf(og, twitter, basic, schema)
              && r.value.image == ImageOf(og, twitter, basic, schema, domain)
              && r.value.siteName == SiteNameOf(og, twitter, schema, domain)
              && r.value.author == AuthorOf(basic, schema).value
              && r.value.lang == StrOrNull(basic.lang)
              && r.value.canonicalUrl == basic.canonicalUrl.GetOr(Null)
  {
    match AuthorOf(basic, schema)
    case Failure(e) => Failure(e)
    case Success(author) =>
      Success(Consolidated(
        TitleOf(og, twitter, basic, schema),
        DescriptionOf(og, twitter, basic, schema),
        ImageOf(og, twitter, basic, schema, domain),
        SiteNameOf(og, twitter, schema, domain),
        author,
        StrOrNull(basic.lang),
        basic.canonicalUrl.GetOr(Null)))
  }

  // ---------------------------------------------------------------------------
  // Properties of the rules

  /** A relative, empty or missing basic image hides the OG, Twitter and Schema images entirely. */
  lemma RelativeImageIgnoresDialects(og: map<string, string>, og': map<string, string>,
                                     twitter: map<string, string>, twitter': map<string, string>,
                                     schema: map<string, Json>, schema': map<string, Json>,
                                     basic: BasicMetadata, domain: string)
    requires !IsAbsoluteImage(basic)
    ensures ImageOf(og, twitter, basic, schema, domain) == ImageOf(og', twitter', basic, schema', domain)
  {
  }

  /** Without a publisher dict, OG site_name and Twitter site are ignored. */
  lemma SiteNameIgnoresDialectsWithoutPublisher(og: map<string, string>, og': map<string, string>,
                                                twitter: map<string, string>, twitter': map<string, string>,
                                                schema: map<string, Json>, domain: string)
    requires !Get(schema, "publisher").Obj?
    ensures SiteNameOf(og, twitter, schema, domain) == SiteNameOf(og', twitter', schema, domain)
  {
  }

  /**
   * The domain fallback names the second-to-last dot-separated label of the
   * domain, capitalized.
   */
  lemma DomainSiteNameLabel(domain: string)
    requires '.' in domain
    ensures exists front, name, top ::
              && domain == front + name + "." + top
              && '.' !in name && '.' !in top
              && (front == "" || front[|front| - 1] == '.')
              && DomainSiteName(domain) == Str(Capitalize(name))
  {
    var labels := Split(domain, '.');
    JoinSplit(domain, '.');
    JoinLastTwo(labels, '.');
    var front, name, top := JoinFront(labels, '.'), labels[|labels| - 2], labels[|labels| - 1];
    assert domain == front + name + "." + top;
    assert '.' !in name && '.' !in top;
    assert DomainSiteName(domain) == Str(Capitalize(name));
  }

  /**
   * With all four dicts empty, every field is None except the image, which is
   * the bare domain URL, and the site name, which comes from the domain.
   */
  lemma ConsolidateEmpty(domain: string)
    ensures Consolidate(NoBasicMetadata, map[], map[], map[], domain)
            == Success(Consolidated(Null, Null, Str("https://" + domain), DomainSiteName(domain), Null, Null, Null))
  {
    EmptyChains();
    EmptyImage(domain);
    EmptySiteName(domain);
  }

  /** With all four dicts empty, the image is the bare domain URL. */
  lemma EmptyImage(domain: string)
    ensures ImageOf(map[], map[], NoBasicMetadata, map[], domain) == Str("https://" + domain)
  {
    assert !IsAbsoluteImage(NoBasicMetadata);
    StripEmpty();
    assert ("https://" + domain) + "" == "https://" + domain;
  }

  /** With all four dicts empty, the site name comes from the domain. */
  lemma EmptySiteName(domain: string)
    ensures SiteNameOf(map[], map[], map[], domain) == DomainSiteName(domain)
  {
    assert !Get(map[], "publisher").Obj?;
  }

  /** With all four dicts empty, the title, description and author chains give None. */
  lemma EmptyChains()
    ensures TitleOf(map[], map[], NoBasicMetadata, map[]) == Null
    ensures DescriptionOf(map[], map[], NoBasicMetadata, map[]) == Null
    ensures AuthorOf(NoBasicMetadata, map[]) == Success(Null)
  {
    assert TitleCandidates(map[], map[], NoBasicMetadata, map[])[4] == Null;
    assert DescriptionCandidates(map[], map[], NoBasicMetadata, map[])[3] == Null;
  }

  /** Title: OG is empty, so the Twitter title wins over the basic one. */
  lemma TitleExample()
    ensures TitleOf(map[], map["title" := "T1"], NoBasicMetadata.(title := Some("T2")), map[]) == Str("T1")
  {
    var cands := TitleCandidates(map[], map["title" := "T1"], NoBasicMetadata.(title := Some("T2")), map[]);
    assert FirstTruthyAt(cands, 1);
  }

  /** A relative basic image wins over an absolute OG image. */
  lemma RelativeImageExample()
    ensures ImageOf(map["image" := "https://cdn.example.com/og.png"], map[],
                    NoBasicMetadata.(image := Some("/logo.png")), map[], "example.com")
            == Str("https://" + "example.com" + "/logo.png")
  {
    var basic := NoBasicMetadata.(image := Some("/logo.png"));
    assert !StartsWith("/logo.png", "http://") by { assert "/logo.png"[0] != "http://"[0]; }
    assert !StartsWith("/logo.png", "https://") by { assert "/logo.png"[0] != "https://"[0]; }
    StripUnspaced("/logo.png");
  }

  /** An absolute basic image lets the OG image win. */
  lemma AbsoluteImageExample()
    ensures ImageOf(map["image" := "https://cdn.x.com/og.png"], map[],
                    NoBasicMetadata.(image := Some("https://cdn.x.com/a.png")), map[], "x.com")
            == Str("https://cdn.x.com/og.png")
  {
    var basic := NoBasicMetadata.(image := Some("https://cdn.x.com/a.png"));
    assert StartsWith("https://cdn.x.com/a.png", "https://");
    var cands := ImageCandidates(map["image" := "https://cdn.x.com/og.png"], map[], basic, map[]);
    assert FirstTruthyAt(cands, 0);
  }

  /** "sub.example.com" is named after "example"; a single-label domain has no name. */
  lemma DomainSiteNameExamples()
    ensures DomainSiteName("sub.example.com") == Str("Example")
    ensures DomainSiteName("example") == Null
  {
    var parts := ["sub", "example", "com"];
    assert Join(parts, '.') == "sub.example.com" by {
      assert parts[1..][1..] == ["com"];
      assert Join(parts[1..], '.') == "example.com";
    }
    assert forall k :: 0 <= k < |parts| ==> '.' !in parts[k];
    SplitJoin(parts, '.');
    CapitalizeExample();
  }
}
