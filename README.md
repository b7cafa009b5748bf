# Link-preview metadata extractor, modelled in Dafny

The serverless function `packages/metadata/extract` fetches a web page and
returns a link-preview record. It reads four metadata dialects from the page:

- basic HTML tags;
- Open Graph `og:` properties;
- Twitter Card `twitter:` names;
- Schema.org JSON-LD scripts.

It then consolidates them into one record, using a priority chain per field,
and adds the favicon, the domain and the three raw dialect dicts.

This project models that pipeline, from the parsed page to the response dict:

- **Page and values.** The parsed page is a sequence of elements. Each element
  has a tag, attributes, its `get_text()` and its `.string`. Python values are
  the `Json` datatype, with Python truthiness (`Truthy`). An `a or b or c`
  chain is `OrChain`: it returns the first truthy operand, or else the last
  operand.
- **Extractors** (`extractors.dfy`). Each one is a method that builds its dict
  step by step, the way the source does. It is proved equal to a specification
  function: `BasicOf`, `PrefixedOf` or `SchemaOf`. Properties are then proved
  about those functions:
  - which tag a field comes from;
  - that a later duplicate key wins;
  - that malformed JSON-LD is skipped;
  - that a JSON-LD script without text makes extraction fail.
- **Favicon resolver** (`favicon.dfy`). A loop with an early return over the
  four link relations. It is proved equal to `FaviconOf`, and the priority order
  and the default are lemmas about `FaviconOf`.
- **Consolidator** (`consolidator.dfy`). Functions only, as in the source.
  - Each `or` chain is specified through `IsOrOf`, an independent statement of
    what a Python `or` chain evaluates to.
  - Python's conditional expression binds looser than `or`, so
    `a or b or c if cond else d` means `(a or b or c) if cond else d`. The
    image and site-name rules follow that parse, and lemmas show what it does:
    - a relative or missing basic image hides every other image source;
    - a Schema.org `publisher` that is not a dict hides the OG and Twitter site
      names.
  - The author chain can raise an AttributeError. It is modelled as a `Result`.
- **Response assembly** (`pipeline.dfy`). The domain is the netloc with every
  `www.` removed. The base URL is `scheme://domain`. `"type"` is always None.
  An empty dialect dict is reported as None. `ExtractMetadata` runs the
  extractor methods in the source's order and is proved equal to `ResponseOf`.
- **Entry point** (`handler.dfy`). `main`, both as written and as evidently
  intended (see Findings).

Supporting modules:

- `wrappers.dfy`: `Option` and `Result`.
- `json.dfy`: Python values, truthiness and `or` chains.
- `text.dfy`: `str.strip`, `str.replace(p, "")`, `str.split`, `str.join`,
  ASCII `capitalize`.
- `maps.dfy`: `Merge`, a left-to-right fold of `dict.update`.
- `document.dfy`: elements and the parser's `find`.
- `errors.dfy`: the exceptions that escape the extraction.

Behaviours of the code a reader may not expect:

- **Domain.** The domain drops every `www.` in the netloc, not only a leading
  one.
- **Site name.** When Schema.org's `publisher` is a dict, the name comes only
  from OG `site_name`, Twitter `site` and the publisher's `name`. There is no
  domain fallback, so the result may be None. When `publisher` is not a dict,
  OG and Twitter are ignored.
- **Title, description and author.** These can hold non-string values.
  - Title and description can be a Schema.org value of any type.
  - Title and description can be the falsy last candidate of their chain, such
    as `""`, rather than None.
  - Author can be the raw Schema.org author of any type.
- **Textless JSON-LD script.** A JSON-LD script with no single text child makes
  `json.loads(None)` raise a TypeError, which nothing in the extraction
  catches. The whole extraction fails instead of skipping that block; the
  handler's `except` turns it into a 500 reply.
- **Fetch failure.** A failed fetch ends in a 500 reply, not a client-error
  reply (see Findings).

## Model

| member | source | states |
|---|---|---|
| `Json.Truthy` | packages/metadata/extract/__main__.py:152-206 | Python truthiness as the `or` chains, the `if` guards and `d if d else None` use it: None, False, zero and empty strings, lists and dicts are falsy, everything else is truthy |
| `Json.OrChain` | packages/metadata/extract/__main__.py:152-166 | A Python `or` chain evaluates to the first truthy operand, or to the last operand when none is truthy; the result is one of the operands, and it is truthy iff some operand is |
| `Json.OrNone` | packages/metadata/extract/__main__.py:193-206 | `v or None` is `v` itself when `v` is truthy, and None when it is falsy |
| `Text.Strip` | packages/metadata/extract/__main__.py:43 | `str.strip()`: the input is the result with whitespace on both sides, and the result neither starts nor ends with whitespace |
| `Text.RemoveAll` | packages/metadata/extract/__main__.py:86 | `str.replace(p, "")` never lengthens the string; which occurrences it removes is stated by `Text.RemoveAllConcat` |
| `Text.RemoveAllLeading` | packages/metadata/extract/__main__.py:86 | A leading pattern before pattern-free text is removed, leaving exactly that text |
| `Text.RemoveAllConcat` | packages/metadata/extract/__main__.py:86 | For a pattern that cannot overlap itself, removal splits at any occurrence: the text before and the text after lose their own occurrences independently, so every occurrence goes, not only a leading one |
| `Text.LastUniqueNoSelfOverlap` | packages/metadata/extract/__main__.py:86 | A pattern whose last character occurs nowhere else in it, such as `og:`, `twitter:` or `www.`, cannot overlap itself |
| `Text.Split` | packages/metadata/extract/__main__.py:186-187 | `str.split(sep)` gives at least one piece, more than one exactly when the separator occurs, and no piece contains the separator |
| `Text.JoinSplit` | packages/metadata/extract/__main__.py:186-187 | Joining the pieces of a split with the separator gives back the string |
| `Text.SplitJoin` | packages/metadata/extract/__main__.py:186-187 | Splitting a join of separator-free pieces gives back the pieces |
| `Text.JoinLastTwo` | packages/metadata/extract/__main__.py:186-187 | A join of two or more pieces ends with the second-to-last piece, the separator and the last piece |
| `Text.Capitalize` | packages/metadata/extract/__main__.py:186 | `capitalize()`: same length, first character upper-cased, every other character lower-cased (ASCII letters) |
| `Maps.MergeLastWins` | packages/metadata/extract/__main__.py:117-121 | After a sequence of `dict.update` calls, a key holds the value of the last dict that defines it |
| `Maps.MergeKeys` | packages/metadata/extract/__main__.py:117-121 | After a sequence of updates, a key is present iff some dict defines it |
| `Document.FindFirst` | packages/metadata/extract/__main__.py:41 | `find` returns the first matching element, and None exactly when nothing matches |
| `Document.FindAt` | packages/metadata/extract/__main__.py:41 | The element at the first matching position is the one `find` returns |
| `Extractors.ExtractBasic` | packages/metadata/extract/__main__.py:36-74 | The conditional insertions build exactly the basic dict `BasicOf` describes |
| `Extractors.BasicOf` | packages/metadata/extract/__main__.py:36-74 | Title, description, author and canonical_url are present iff their tag is found; lang is never empty; an empty image can only come from an `og:image` tag |
| `Extractors.ExtractTitle` | packages/metadata/extract/__main__.py:40-43 | The title step yields the first `<title>`'s stripped text, or nothing without a `<title>` |
| `Extractors.ExtractNamedMeta` | packages/metadata/extract/__main__.py:45-48 | The description and author steps yield the first named meta tag's stripped content, or nothing |
| `Extractors.ExtractLang` | packages/metadata/extract/__main__.py:50-53 | The language step yields the first `<html>` tag's `lang` when it is non-empty |
| `Extractors.ExtractCanonical` | packages/metadata/extract/__main__.py:60-63 | The canonical step yields the first canonical link's href, None when it has none |
| `Extractors.ExtractImage` | packages/metadata/extract/__main__.py:65-72 | The image step equals `BasicImage`: it prefers the `og:image` meta tag, falls back to the first `<img>`'s src when that src is non-empty, and yields nothing when the page has neither tag (`BasicImageFromOgTag`, `BasicImageFromFirstImg`, `BasicImageWithoutSources`) |
| `Extractors.BasicTitle` | packages/metadata/extract/__main__.py:40-43 | The title is present exactly when a `<title>` is found |
| `Extractors.BasicTitleFromFirstTag` | packages/metadata/extract/__main__.py:40-43 | The title is present iff some `<title>` exists, and is then the first one's `get_text()`, stripped |
| `Extractors.NamedMetaContent` | packages/metadata/extract/__main__.py:45-48 | The description (and, at lines 55-58, the author) is present exactly when a meta tag with that `name` is found |
| `Extractors.BasicLang` | packages/metadata/extract/__main__.py:50-53 | A present `lang` is never empty |
| `Extractors.BasicLangFromFirstHtmlTag` | packages/metadata/extract/__main__.py:50-53 | `lang` is the first `<html>` tag's `lang` when that is non-empty, absent when it is empty or missing, and absent on a page without `<html>` |
| `Extractors.BasicCanonical` | packages/metadata/extract/__main__.py:60-63 | `canonical_url` is present exactly when a canonical link is found, and is a string or None |
| `Extractors.BasicCanonicalFromFirstLink` | packages/metadata/extract/__main__.py:60-63 | `canonical_url` is present iff a canonical link exists, and is then the first such link's raw href, or None when it has no href |
| `Extractors.BasicImage` | packages/metadata/extract/__main__.py:65-72 | An empty image can only come from an `og:image` meta tag: an `<img>` with an empty src adds nothing |
| `Extractors.NamedMetaFromFirstTag` | packages/metadata/extract/__main__.py:45-58 | The description and author keys are present iff a matching meta tag exists, and then hold the first such tag's content, stripped, possibly "" |
| `Extractors.BasicImageFromOgTag` | packages/metadata/extract/__main__.py:65-68 | With an `og:image` meta tag, the image is its stripped content, whatever `<img>` tags the page has |
| `Extractors.BasicImageWithoutSources` | packages/metadata/extract/__main__.py:66-72 | A page with neither an `og:image` meta tag nor an `<img>` gets no image key |
| `Extractors.BasicImageFromFirstImg` | packages/metadata/extract/__main__.py:69-72 | Without an `og:image` tag, only the first `<img>` decides: its src when non-empty, else no image |
| `Extractors.ExtractPrefixed` | packages/metadata/extract/__main__.py:81-87 | The tag loop builds exactly the merge of the per-tag entries, in document order |
| `Extractors.PrefixedOf` | packages/metadata/extract/__main__.py:79-87 | The dialect dict is the tags' entries merged in document order, and the `if prop and content` guard makes every value non-empty |
| `Extractors.PrefixedOfSnoc` | packages/metadata/extract/__main__.py:81-87 | One more tag updates the dialect dict built so far with that tag's entry |
| `Extractors.ExtractOpenGraph` | packages/metadata/extract/__main__.py:76-89 | `extract_open_graph` is the prefixed-tag loop over `property` and `og:` |
| `Extractors.ExtractTwitterCard` | packages/metadata/extract/__main__.py:91-104 | `extract_twitter_card` is the prefixed-tag loop over `name` and `twitter:` |
| `Extractors.PrefixedKeys` | packages/metadata/extract/__main__.py:79-87 | A key is in the dialect dict iff some tag with the prefix and non-empty content yields it as its attribute with every prefix occurrence removed |
| `Extractors.KeyDropsEveryPrefix` | packages/metadata/extract/__main__.py:86 | The key drops every occurrence of `og:` or `twitter:` in the attribute, not only a leading one |
| `Extractors.OpenGraphRepeatedPrefix` | packages/metadata/extract/__main__.py:86 | A property with the prefix twice, such as `og:image:og:alt`, is stored under the two remainders joined, `image:alt` |
| `Extractors.PrefixedLastWins` | packages/metadata/extract/__main__.py:84-87 | For a duplicate key, the last contributing tag's content wins |
| `Extractors.PrefixedSkipsEmptyContent` | packages/metadata/extract/__main__.py:83-84 | A tag with empty or missing content changes nothing, wherever it stands |
| `Extractors.OpenGraphKeyExample` | packages/metadata/extract/__main__.py:86-87 | An `og:title` tag with content "T" yields exactly `{"title": "T"}` |
| `Extractors.UpdateWithObjects` | packages/metadata/extract/__main__.py:118-121 | The inner loop updates the dict with the array's dict elements in order and ignores the rest |
| `Extractors.UpdateWithScript` | packages/metadata/extract/__main__.py:113-123 | One script raises the TypeError when it has no single text child, and otherwise updates the dict with that script's block |
| `Extractors.BlockOf` | packages/metadata/extract/__main__.py:113-121 | A script adds keys only when it is JSON-LD, has text, and its text parses to a dict or a list |
| `Extractors.MergedBlocksSnoc` | packages/metadata/extract/__main__.py:113-121 | One more script updates the merged blocks built so far with that script's block |
| `Extractors.ExtractSchemaOrg` | packages/metadata/extract/__main__.py:106-125 | The script loop returns exactly `SchemaOf`: the merged blocks, or the TypeError of a textless script |
| `Extractors.SchemaOf` | packages/metadata/extract/__main__.py:106-125 | Schema extraction fails only with the TypeError of `json.loads(None)` |
| `Extractors.SchemaKeysFromScripts` | packages/metadata/extract/__main__.py:113-121 | Every key of the Schema.org dict comes from the block of some script of the page |
| `Extractors.SchemaFailsOnlyOnTextless` | packages/metadata/extract/__main__.py:113-123 | Schema extraction fails iff some JSON-LD script has no single text child |
| `Extractors.SchemaLaterBlockWins` | packages/metadata/extract/__main__.py:116-121 | For a key several blocks define, the last block's value wins |
| `Extractors.ArrayLaterObjectWins` | packages/metadata/extract/__main__.py:118-121 | Within an array block, the last dict element that defines a key wins |
| `Extractors.ObjectsInKeys` | packages/metadata/extract/__main__.py:118-121 | A key present after the array's updates comes from some dict element of the array |
| `Extractors.ObjectsInNoKey` | packages/metadata/extract/__main__.py:118-121 | A key no dict element of the array defines is absent after the array's updates |
| `Extractors.BlocksOfConcat` | packages/metadata/extract/__main__.py:113-121 | The blocks of a concatenation of pages are the blocks of each part, in order |
| `Extractors.SchemaSkipsMalformed` | packages/metadata/extract/__main__.py:114-123 | A script whose text does not parse is skipped: removing it changes neither the dict nor the failure |
| `Extractors.TextlessAfterSkip` | packages/metadata/extract/__main__.py:115 | Removing a script that has text keeps whether some script lacks text |
| `Favicon.ExtractFavicon` | packages/metadata/extract/__main__.py:127-143 | The selector loop with early return gives exactly `FaviconOf` |
| `Favicon.IconHref` | packages/metadata/extract/__main__.py:137-140 | A relation yields an href iff its first link exists and has a non-empty href, and it then yields that href |
| `Favicon.FirstLinkOnly` | packages/metadata/extract/__main__.py:138-139 | When the first link with a relation has no or an empty href, the relation yields nothing, whatever later links hold |
| `Favicon.FaviconFromPicks` | packages/metadata/extract/__main__.py:137-140 | The first relation in the list whose first link has an href decides the favicon |
| `Favicon.FaviconFromDefault` | packages/metadata/extract/__main__.py:142-143 | When no relation yields an href, the favicon is the joined `/favicon.ico` |
| `Favicon.FaviconPriority` | packages/metadata/extract/__main__.py:130-140 | The relations are tried as `icon`, `shortcut icon`, `apple-touch-icon`, `apple-touch-icon-precomposed`, and the first that yields an href gives `urljoin(base, href)` |
| `Favicon.FaviconWithoutLinks` | packages/metadata/extract/__main__.py:142-143 | A page without links gets `urljoin(base, "/favicon.ico")` |
| `Consolidator.TitleOf` | packages/metadata/extract/__main__.py:151-158 | Title is the `or` of OG title, Twitter title, basic title, Schema name and Schema headline |
| `Consolidator.TitleExample` | packages/metadata/extract/__main__.py:151-158 | With no OG title, the Twitter title beats the basic title |
| `Consolidator.DescriptionOf` | packages/metadata/extract/__main__.py:160-166 | Description is the `or` of OG, Twitter, basic and Schema description |
| `Consolidator.ImageOf` | packages/metadata/extract/__main__.py:168-177 | With an http(s) basic image, the image is the `or` of OG, Twitter, Schema and basic image, and is truthy; otherwise it is exactly `https://` + domain + the stripped basic image |
| `Consolidator.RelativeImageIgnoresDialects` | packages/metadata/extract/__main__.py:168-177 | A relative or missing basic image makes the image independent of OG, Twitter and Schema |
| `Consolidator.RelativeImageExample` | packages/metadata/extract/__main__.py:168-177 | A relative basic image `/logo.png` beats an absolute OG image |
| `Consolidator.AbsoluteImageExample` | packages/metadata/extract/__main__.py:168-177 | An absolute basic image lets the OG image win |
| `Consolidator.DomainSiteName` | packages/metadata/extract/__main__.py:185-189 | The domain fallback is None exactly when the domain has no dot |
| `Consolidator.DomainSiteNameLabel` | packages/metadata/extract/__main__.py:185-189 | The domain fallback is the capitalized second-to-last dot-separated label of the domain |
| `Consolidator.DomainSiteNameExamples` | packages/metadata/extract/__main__.py:185-189 | `sub.example.com` gets the site name `Example`, and a dotless domain gets None |
| `Consolidator.SiteNameOf` | packages/metadata/extract/__main__.py:179-190 | With a publisher dict, the site name is the `or` of OG site_name, Twitter site and publisher name; otherwise it is the domain fallback |
| `Consolidator.SiteNameIgnoresDialectsWithoutPublisher` | packages/metadata/extract/__main__.py:179-190 | Without a publisher dict, OG and Twitter never affect the site name |
| `Consolidator.SchemaAuthor` | packages/metadata/extract/__main__.py:196-204 | The inner author expression raises exactly when the author is a list starting with a dict whose `mainEntity` is not a dict, naming that value as the receiver; a non-dict, non-list author is passed through |
| `Consolidator.AuthorOf` | packages/metadata/extract/__main__.py:192-206 | A truthy basic author wins; otherwise, with a dict author, its `name` or None; with a list whose first dict has a dict `mainEntity`, that entity's `name` or None; with any other author, the raw author or None; a falsy outcome is None; it fails iff the basic author is falsy and the author is a list starting with a dict whose `mainEntity` is not a dict |
| `Consolidator.Consolidate` | packages/metadata/extract/__main__.py:145-212 | The consolidated dict fails exactly when the author chain does; otherwise title, description, image, site_name and author are the values of their rules (`TitleOf`, `DescriptionOf`, `ImageOf`, `SiteNameOf`, `AuthorOf`), and lang and canonical_url are the basic ones |
| `Consolidator.ConsolidateEmpty` | packages/metadata/extract/__main__.py:145-212 | With every dialect empty, only the image (`https://` plus the domain) and the domain site name are set |
| `Pipeline.DomainOf` | packages/metadata/extract/__main__.py:217 | The domain is the netloc with `www.` removed, never longer than it; `Pipeline.DomainDropsEveryWww` states that every occurrence goes |
| `Pipeline.BaseUrl` | packages/metadata/extract/__main__.py:218 | The base URL is the scheme, then `://`, then the domain, each recoverable at its position |
| `Pipeline.DomainKeepsPlainNetloc` | packages/metadata/extract/__main__.py:217 | A netloc without `www.` is the domain as it stands |
| `Pipeline.DomainDropsLeadingWww` | packages/metadata/extract/__main__.py:217 | A leading `www.` is dropped |
| `Pipeline.DomainDropsEveryWww` | packages/metadata/extract/__main__.py:217 | Every `www.` is dropped wherever it stands: around any occurrence, each side loses its own |
| `Pipeline.DomainDropsInnerWww` | packages/metadata/extract/__main__.py:217 | A `www.` in the middle of the netloc, as in `shop.www.example.com`, is removed too |
| `Pipeline.NoneIfEmpty` | packages/metadata/extract/__main__.py:247-249 | A dialect dict is reported as None iff it is empty, and as itself otherwise |
| `Pipeline.Assemble` | packages/metadata/extract/__main__.py:235-250 | The response carries the final URL, the domain, the favicon and the consolidated fields unchanged, `type` None, and each dialect dict as itself, or None when empty |
| `Pipeline.ResponseOf` | packages/metadata/extract/__main__.py:214-250 | With `json.loads` and `urljoin` taken as never raising (see Left out), extraction fails iff a JSON-LD script lacks text or the author chain fails; otherwise the response carries the final URL, the domain, `type` None, the favicon `FaviconOf` gives for the base URL, every consolidated field of `Consolidate` over the three extracted dialects, and each dialect dict as `NoneIfEmpty` reports it |
| `Pipeline.ExtractMetadata` | packages/metadata/extract/__main__.py:214-250 | Running the extractor methods, the consolidator and the favicon loop gives exactly `ResponseOf` |
| `Pipeline.EmptyPageResponse` | packages/metadata/extract/__main__.py:214-250 | An empty page yields None fields, the bare domain URL as image, the domain site name, the default favicon and no dialect dicts |
| `Handler.ErrorMessage` | packages/metadata/extract/__main__.py:266-267 | `str(e)` of the two exceptions extraction can raise: the TypeError of `json.loads(None)` at line 115 and the AttributeError of `.get` on a non-dict at line 199, naming the receiver's type |
| `Handler.MainAsWritten` | packages/metadata/extract/__main__.py:256-267 | As written, every reply is 400 or 500 and carries an error body |
| `Handler.MainAsWrittenNeverSucceeds` | packages/metadata/extract/__main__.py:256-267 | As written, a falsy URL gives 400 and every other call gives 500 with an error body |
| `Handler.MainAsWrittenHidesFetchReason` | packages/metadata/extract/__main__.py:31-34 | As written, every failed fetch gives the same 500 TypeError reply, whatever the reason |
| `Handler.MainAsWrittenFailsOnEmptyPage` | packages/metadata/extract/__main__.py:262-265 | As written, an empty page fetched for a present URL, which extracts successfully, still gets a 500 `model_dump` error |
| `Handler.MainAsWrittenRejectsExtracted` | packages/metadata/extract/__main__.py:262-265 | As written, every successful extraction for a present URL ends in the 500 `model_dump` error |
| `Handler.Main` | packages/metadata/extract/__main__.py:256-267 | As intended: the reply is 400 iff the URL is missing or falsy or the fetch failed, and every non-200 reply carries an error message |
| `Handler.MainSucceedsIff` | packages/metadata/extract/__main__.py:256-267 | As intended, the reply is 200 iff the URL is present, the fetch succeeded and extraction raised nothing, and its body is then the response dict |
| `Handler.MainReportsFetchReason` | packages/metadata/extract/__main__.py:31-34 | As intended, a failed fetch is a 400 reply reporting `Failed to fetch URL: ` followed by the fetch error's message |
| `Handler.MainAgreesOnExtractionErrors` | packages/metadata/extract/__main__.py:256-267 | The intended and as-written handlers agree on a missing URL and on extraction errors |

## Left out

- Fetching the page (`fetch_page`, the `requests` session, timeout, redirects, `raise_for_status`, lines 19-34): network I/O. Its outcome is an input: a failure reason, or the final URL with its scheme and netloc and the parsed page.
- HTML parsing: BeautifulSoup is a third-party library. The page is given as a sequence of elements. Attribute selectors match one attribute's whole value exactly. The token matching that `find(..., attrs={"rel": "canonical"})` applies to multi-valued `rel` attributes is not modelled.
- Document order of `find_all` and `find` is taken to be the order of the element sequence; nesting of elements is not modelled.
- `json.loads` is the parameter `parse`: None for text that is not valid JSON. It follows the standard library's JSON decoder and is not part of this model.
- `urljoin` is the parameter `join`, and `urlparse` is replaced by the scheme and netloc inputs. Both follow the standard library and RFC 3986, section 5.2, and are not part of this model.
- `Pipeline.ResponseOf`: `join` and `parse` never raise. Two failures are not modelled, and each would end in a 500 reply instead of the outcome stated here. `urljoin` raises a ValueError on a malformed bracketed host in a favicon href (line 140). `json.loads` can raise errors other than JSONDecodeError that the `except` at line 122 does not catch: a ValueError for an integer literal over the digit limit, or a RecursionError for deeply nested JSON.
- Key order of the dialect dicts: they are maps here, so the insertion order Python keeps is lost. That is first-insertion order for Open Graph and Twitter and update order for Schema.org, and it shows in the order of the JSON body's keys.
- Numbers inside JSON are kept only as far as truthiness needs: integers as `int`, floats as `real`.
- `Text.Capitalize`: covers ASCII letters only; Python's Unicode case mapping is not modelled.
- `Text.Strip`: whitespace is the fixed set of code points Python's `str.isspace` accepts; Unicode database updates are not tracked.
- `Handler.MainAsWritten` and `Handler.Main`: the exception messages are the CPython texts; other interpreters' wording is not modelled.
- `__init__` (lines 10-17) only sets the User-Agent header and the timeout; the module-level `extractor` instance holds no state that the pipeline reads.

## Findings

| source | as written | input that shows it | evidently intended | confidence | as-written member | corrected member |
|---|---|---|---|---|---|---|
| packages/metadata/extract/__main__.py:262-265 | On success, `main` calls `metadata.model_dump()` on the plain dict that `extract_metadata` returns. The AttributeError lands in the `except` branch. | Any present URL whose page is fetched and extracted, e.g. an empty page: the reply is 500 with `'dict' object has no attribute 'model_dump'` | A 200 reply whose body is the metadata dict | high (not executed) | `Handler.MainAsWrittenNeverSucceeds` | `Handler.MainSucceedsIff` |
| packages/metadata/extract/__main__.py:31-34 | A failed fetch raises `http.client.HTTPException(status_code=400, detail=...)`. That class takes no keyword arguments, so a TypeError is raised instead. | Any present URL whose fetch fails: the reply is 500 with `HTTPException() takes no keyword arguments`, and the fetch error is lost | A 400 reply reporting `Failed to fetch URL: ` followed by the fetch error | high (not executed) | `Handler.MainAsWrittenHidesFetchReason` | `Handler.MainReportsFetchReason` |
