/**
 * The serverless entry point `main(args)`: a 400 reply for a missing URL, a
 * 500 reply carrying `str(e)` for any exception, otherwise the metadata.
 * Fetching the page is outside the model; its outcome is an input.
 *
 * Two definitions are given. `MainAsWritten` follows the code as it stands:
 * the success path calls `.model_dump()` on a plain dict, and a failed fetch
 * builds `http.client.HTTPException` with keyword arguments, which it does
 * not accept. `Main` is the evidently intended behaviour.
 */
module Handler {
  import opened Wrappers
  import opened Json
  import opened Document
  import opened Errors
  import opened Pipeline

  /** The outcome of `fetch_page(url)`: a `requests` error with its message, or the fetched page. */
  datatype Fetch =
    | FetchFailed(reason: string)
    | Fetched(finalUrl: string, scheme: string, netloc: string, doc: seq<Element>)

  datatype Body = ErrorBody(error: string) | MetadataBody(metadata: MetadataResponse)

  /** `{"statusCode": ..., "body": ...}`. */
  datatype Reply = Reply(statusCode: int, body: Body)

  const MissingUrl := "Missing 'url' parameter"

  /** `str(e)` of the TypeError raised by `HTTPException(status_code=..., detail=...)`. */
  const KeywordArgumentsError := "HTTPException() takes no keyword arguments"

  /** `str(e)` of the AttributeError raised by `metadata.model_dump()` on a dict. */
  const ModelDumpError := "'dict' object has no attribute 'model_dump'"

  const FetchFailurePrefix := "Failed to fetch URL: "

  /** Python's type name of a value. */
  function TypeName(v: Json): string
  {
    match v
    case Null => "NoneType"
    case Bool(_) => "bool"
    case Int(_) => "int"
    case Float(_) => "float"
    case Str(_) => "str"
    case Arr(_) => "list"
    case Obj(_) => "dict"
  }

  /** `str(e)` of an exception the extraction raises. */
  function ErrorMessage(e: Error): string
  {
    match e
    case JsonLoadsOfNone => "the JSON object must be str, bytes or bytearray, not NoneType"
    case NoGetAttribute(receiver) => "'" + TypeName(receiver) + "' object has no attribute 'get'"
  }

  /** `main` as written. */
  function MainAsWritten(args: map<string, Json>, fetch: Fetch,
                         parse: string -> Option<Json>, join: (string, string) -> string): (reply: Reply)
    ensures reply.statusCode == 400 || reply.statusCode == 500
    ensures reply.body.ErrorBody?
  {
    if !Truthy(Get(args, "url")) then Reply(400, ErrorBody(MissingUrl))
    else
      match fetch
      case FetchFailed(_) => Reply(500, ErrorBody(KeywordArgumentsError))
      case Fetched(finalUrl, scheme, netloc, doc) =>
        match ResponseOf(finalUrl, scheme, netloc, doc, parse, join)
        case Failure(e) => Reply(500, ErrorBody(ErrorMessage(e)))
        case Success(_) => Reply(500, ErrorBody(ModelDumpError))
  }

  /** `main` as intended: the metadata itself is the body, and a failed fetch is a client error that reports its reason. */
  function Main(args: map<string, Json>, fetch: Fetch,
                parse: string -> Option<Json>, join: (string, string) -> string): (reply: Reply)
    ensures reply.statusCode == 400 <==> !Truthy(Get(args, "url")) || fetch.FetchFailed?
    ensures reply.statusCode == 200 || reply.body.ErrorBody?
  {
    if !Truthy(Get(args, "url")) then Reply(400, ErrorBody(MissingUrl))
    else
      match fetch
      case FetchFailed(reason) => Reply(400, ErrorBody(FetchFailurePrefix + reason))
      case Fetched(finalUrl, scheme, netloc, doc) =>
        match ResponseOf(finalUrl, scheme, netloc, doc, parse, join)
        case Failure(e) => Reply(500, ErrorBody(ErrorMessage(e)))
        case Success(metadata) => Reply(200, MetadataBody(metadata))
  }

  // ---------------------------------------------------------------------------
  // The code as written

  /** As written, a missing or falsy URL gives 400 and everything else gives 500: no reply is ever 200. */
  lemma MainAsWrittenNeverSucceeds(args: map<string, Json>, fetch: Fetch,
                                   parse: string -> Option<Json>, join: (string, string) -> string)
    ensures var reply := MainAsWritten(args, fetch, parse, join);
            && reply.body.ErrorBody?
            && (reply.statusCode == 400 <==> !Truthy(Get(args, "url")))
            && (reply.statusCode != 400 ==> reply.statusCode == 500)
  {
  }

  /** As written, every failed fetch gives the same reply: the reason never reaches the caller. */
  lemma MainAsWrittenHidesFetchReason(args: map<string, Json>, reason: string, reason': string,
                                      parse: string -> Option<Json>, join: (string, string) -> string)
    requires Truthy(Get(args, "url"))
    ensures MainAsWritten(args, FetchFailed(reason), parse, join)
            == MainAsWritten(args, FetchFailed(reason'), parse, join)
            == Reply(500, ErrorBody(KeywordArgumentsError))
  {
  }

  /** A case that shows it: an empty page fetched for a present URL still gets a 500 reply. */
  lemma MainAsWrittenFailsOnEmptyPage(url: string, scheme: string, netloc: string,
                                      parse: string -> Option<Json>, join: (string, string) -> string)
    requires url != ""
    ensures MainAsWritten(map["url" := Str(url)], Fetched(url, scheme, netloc, []), parse, join)
            == Reply(500, ErrorBody(ModelDumpError))
  {
    var args := map["url" := Str(url)];
    assert Truthy(Get(args, "url"));
    assert ResponseOf(url, scheme, netloc, [], parse, join).Success? by {
      EmptyPageResponse(url, scheme, netloc, parse, join);
    }
    MainAsWrittenRejectsExtracted(args, Fetched(url, scheme, netloc, []), parse, join);
  }

  /** As written, every successful extraction ends in the `model_dump` error. */
  lemma MainAsWrittenRejectsExtracted(args: map<string, Json>, fetch: Fetch,
                                      parse: string -> Option<Json>, join: (string, string) -> string)
    requires Truthy(Get(args, "url")) && fetch.Fetched?
    requires ResponseOf(fetch.finalUrl, fetch.scheme, fetch.netloc, fetch.doc, parse, join).Success?
    ensures MainAsWritten(args, fetch, parse, join) == Reply(500, ErrorBody(ModelDumpError))
  {
  }

  // ---------------------------------------------------------------------------
  // The intended behaviour

  /** The reply is 200 exactly when the URL is present, the fetch succeeded and extraction raised nothing; its body is then the response dict. */
  lemma MainSucceedsIff(args: map<string, Json>, fetch: Fetch,
                        parse: string -> Option<Json>, join: (string, string) -> string)
    ensures var reply := Main(args, fetch, parse, join);
            && (reply.statusCode == 200 <==>
                  && Truthy(Get(args, "url"))
                  && fetch.Fetched?
                  && ResponseOf(fetch.finalUrl, fetch.scheme, fetch.netloc, fetch.doc, parse, join).Success?)
            && (reply.statusCode == 200 ==>
                  reply.body == MetadataBody(ResponseOf(fetch.finalUrl, fetch.scheme, fetch.netloc, fetch.doc, parse, join).value))
  {
  }

  /** A failed fetch for a present URL is a client error reporting the fetch error's message after a fixed prefix. */
  lemma MainReportsFetchReason(args: map<string, Json>, reason: string,
                               parse: string -> Option<Json>, join: (string, string) -> string)
    requires Truthy(Get(args, "url"))
    ensures var reply := Main(args, FetchFailed(reason), parse, join);
            && reply.statusCode == 400
            && reply.body.ErrorBody?
            && reply.body.error[..|FetchFailurePrefix|] == FetchFailurePrefix
            && reply.body.error[|FetchFailurePrefix|..] == reason
  {
  }

  /** The intended handler differs from the code as written only on a fetch failure and on success. */
  lemma MainAgreesOnExtractionErrors(args: map<string, Json>, fetch: Fetch,
                                     parse: string -> Option<Json>, join: (string, string) -> string)
    requires !Truthy(Get(args, "url"))
             || (fetch.Fetched? && ResponseOf(fetch.finalUrl, fetch.scheme, fetch.netloc, fetch.doc, parse, join).Failure?)
    ensures Main(args, fetch, parse, join) == MainAsWritten(args, fetch, parse, join)
  {
  }
}
