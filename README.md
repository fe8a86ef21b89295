# OAI-PMH harvesting client core, in Dafny

This project models the response-processing and pagination core of
pyoai's OAI-PMH 2.0 client (`src/oaipmh/client.py`) and proves what it
promises. The network, XML parsing and the clock are left out. Five
pieces remain.

- **Resumption lists** (`pagination.dfy`). `ResumptionListGenerator` joins
  the pages of ListRecords, ListIdentifiers and ListSets into one lazy
  sequence, using resumption tokens (section 3.5 of OAI-PMH 2.0). The
  suspended generator is the class `ResumptionList`. Its state is the page
  being drained, the position in it, the last token and the number of
  pages fetched. The answers of `firstBatch()` and of each
  `nextBatch(token)` are the sequence `pages`.
- **Error check** (`errors.dfy`). The first `error` element of a response
  (section 3.6 of OAI-PMH 2.0) selects the exception. The source finds the
  exception class by name with `getattr`; here the classes form the
  enumeration `ErrorKind`.
- **503 retry loop** (`retry.dfy`). `retrieveFromUrlWaiting` retries on
  HTTP 503 and sleeps for the Retry-After hint (sections 6.6.4 and 7.1.3
  of RFC 7231). The transport is a function from attempt number to
  outcome. The sleeps are returned as a list of durations.
- **Response mappers** (`mapper.dfy`, `document.dfy`, `pytext.dfy`,
  `client.dfy`). `buildHeader`, `buildRecords`, `buildIdentifiers`,
  `buildSets`, `ListMetadataFormats_impl` and `GetRecord_impl` work on an
  abstract parsed document. Each XPath query is a function over that
  document. The blank-token test `token.strip() == ''` follows Python 2:
  lxml returns a byte string for ASCII-only text and a unicode string
  otherwise, and the two strip different whitespace sets. `str()` on
  non-ASCII text raises `UnicodeEncodeError`, modelled as `NonAsciiText`.
- **Argument rewriting** (`arguments.dfy`). `handleVerb` changes its `kw`
  dictionary in place. It renames `from_` to `from` and encodes `from` and
  `until` as datestamps.

The datestamp codec of `common` is not part of this model. Decoding is a
parameter `decode: string -> Option<D>`, where `None` means the codec
raised. Encoding is a parameter `encode: V -> V`. `metadata_registry.readMetadata`
is a parameter `read`.

Behaviour of the code kept as written:
- A 503 whose Retry-After header is absent raises `TypeError` (`int(None)`).
  Only `ValueError` is caught, so only a present non-integer header falls
  back to `wait_default`.
- A negative Retry-After value makes `time.sleep` raise, and that
  exception leaves the loop.
- `buildRecords` reads records and the token under any child of the root.
  The other mappers read only under their own verb's element.
- Tokens are normalised to `None` when blank. Any other token is kept
  exactly as read, without stripping.

## Model

| member | source | states |
|---|---|---|
| Pagination.FirstEnd | src/oaipmh/client.py:297-299 | the list ends at the first page whose token is `None` or whose fetch raises; every earlier page carries a token |
| Pagination.FirstEndFrom | src/oaipmh/client.py:294-299 | from page `i` on, the first page that ends the list, with no ending page between `i` and it |
| Pagination.ItemsOfGrows | src/oaipmh/client.py:295-299 | the items of the first `m` pages are a prefix of the items of the first `n` pages for `m <= n` |
| Pagination.ResumptionList.constructor | src/oaipmh/client.py:292-293 | creating the generator fetches nothing and yields nothing |
| Pagination.ResumptionList.Fetch | src/oaipmh/client.py:293 | one fetch takes the next page, logs its argument (`None` for `firstBatch`, the current token for `nextBatch`) and makes that page current, or finishes the generator when the fetch raises |
| Pagination.ResumptionList.Refill | src/oaipmh/client.py:294-299 | keeps fetching while the current page is drained and its token is not `None`; it fetches only when the current page is drained and yields nothing |
| Pagination.ResumptionList.Emit | src/oaipmh/client.py:295-296 | yields the next item of the current page, appending it to what has been yielded |
| Pagination.ResumptionList.Finish | src/oaipmh/client.py:297-298 | after a drained page whose token is `None` the generator is exhausted |
| Pagination.ResumptionList.Next | src/oaipmh/client.py:292-299 | one `next()` yields the next item of the harvest, or stops with `StopIteration`, or raises the failing fetch's exception; yielded items are always a prefix of the harvest; a page is fetched only once the previous page is drained; once finished, exactly the pages up to the first ending one were fetched and the whole harvest was yielded |
| Pagination.ResumptionList.Settled | src/oaipmh/client.py:292-299 | the generator's state never runs past the first ending page, its output is a prefix of the harvest, and a finished generator has yielded all of it |
| Pagination.Drain | src/oaipmh/client.py:292-299 | iterating to the end yields the items of every page up to the first ending page, in page order, ends as that page says (stop or its exception), and makes exactly that many fetches with no page cap |
| Pagination.Take | src/oaipmh/client.py:292-299 | consuming `n` items yields the first `n` items of the harvest; it fetches nothing for `n = 0`, and the `n`-th item comes from the last page fetched (no page fetched ahead of need) |
| Pagination.ThreePages | src/oaipmh/client.py:292-299 | pages with tokens "tok1", "tok2" and none, holding 2, 2 and 1 items, give the 5 items in order after exactly 3 fetches |
| PyText.StripLeft | src/oaipmh/client.py:178 | `lstrip()` drops exactly the leading whitespace: a suffix whose first character is not whitespace |
| PyText.StripRight | src/oaipmh/client.py:178 | `rstrip()` drops exactly the trailing whitespace: a prefix whose last character is not whitespace |
| PyText.BlankIffAllSpace | src/oaipmh/client.py:178 | `s.strip() == ''` iff every character of `s` is whitespace, for the string kind lxml returns |
| Document.Errors | src/oaipmh/client.py:240-241 | exactly the `error` children of the root: every element returned is one, and every one is returned; there are none iff every child is a verb element; the first returned is the first `error` child in document order |
| ResponseMapper.NormalizeToken | src/oaipmh/client.py:176-179 | the token is `None` iff the raw text is all whitespace (including empty); otherwise it is the raw, unstripped text |
| ResponseMapper.ToByteStrings | src/oaipmh/client.py:288 | `[str(s) for s in ...]` returns the texts unchanged when all are ASCII, else fails on the first non-ASCII text |
| ResponseMapper.BuildHeader | src/oaipmh/client.py:283-290 | the header keeps identifier and setSpecs (document order), holds the decoded datestamp, and has `deleted` iff status is `deleted`; it fails iff a text is not ASCII or the datestamp does not decode, raising first for a non-ASCII identifier, then a non-ASCII datestamp, then a datestamp that does not decode, then the first non-ASCII setSpec |
| ResponseMapper.BuildRecord | src/oaipmh/client.py:183-200 | a record node without a header child raises; a failing `buildHeader` raises its own exception; otherwise the record holds the built header, metadata read from the first metadata child and absent exactly when there is none, and no `about` |
| ResponseMapper.MapRecords | src/oaipmh/client.py:183-200 | the `for` loop over record nodes appends one record per node, in order, and stops at the first node that raises, with that node's exception |
| ResponseMapper.BuildRecords | src/oaipmh/client.py:172-201 | one record per record node, in document order, with the normalised token; otherwise the exception of the first record node that fails |
| ResponseMapper.MapHeaders | src/oaipmh/client.py:213-215 | the `for` loop over header nodes appends one header per node, in order, and stops at the first node that raises, with that node's exception |
| ResponseMapper.BuildIdentifiers | src/oaipmh/client.py:203-216 | one header per header node under ListIdentifiers, in document order, with the normalised token; otherwise the exception of the first header that fails |
| ResponseMapper.MapSets | src/oaipmh/client.py:228-233 | the `for` loop over set nodes appends `(setSpec, setName, None)` for each node, in order |
| ResponseMapper.BuildSets | src/oaipmh/client.py:218-234 | one `(setSpec, setName, None)` per set node under ListSets, in document order, with the normalised token |
| ResponseMapper.ListMetadataFormats | src/oaipmh/client.py:125-140 | one `(metadataPrefix, schema, metadataNamespace)` per metadataFormat node, in document order |
| ResponseMapper.GetRecord | src/oaipmh/client.py:78-86 | the first record when every record maps, the token is blank and there is a record; a non-blank token raises the assertion error, no record raises the index error, and a failing record raises first |
| ErrorClassifier.NameOfCode | src/oaipmh/client.py:256 | for each known code, `code[0].upper() + code[1:] + 'Error'` is the name of that code's error class |
| ErrorClassifier.Lookup | src/oaipmh/client.py:248-251 | a code selects an error kind iff it is one of the eight known codes, and the kind's code is that code |
| ErrorClassifier.ErrorFor | src/oaipmh/client.py:246-256 | a known code raises the error class named from it, carrying the element's text; any other code, including a missing one, raises `UnknownError` whose message holds code and text |
| ErrorClassifier.Classify | src/oaipmh/client.py:239-257 | a response without `error` elements is returned unchanged; any response with one raises, chosen by its first `error` element |
| ErrorClassifier.FirstErrorDecides | src/oaipmh/client.py:242-256 | two responses with the same first `error` element raise the same exception, whatever follows it |
| RetryLoop.RetrieveFromUrlWaiting | src/oaipmh/client.py:301-327 | the `for ... else` loop returns the body, the exception and the sleeps of the retry specification |
| RetryLoop.SleepsFollowRetryAfter | src/oaipmh/client.py:312-321 | each sleep follows a retried 503 and lasts its integer Retry-After, or `wait_default` when the header is present but not an integer; never more sleeps than attempts left |
| RetryLoop.HowItEnds | src/oaipmh/client.py:305-326 | after the sleeps the loop stops at the first attempt it does not retry: a body is returned, a non-503 error, missing Retry-After, negative sleep or other failure propagates, with one more attempt than sleeps; otherwise it raises "Waited too often" |
| RetryLoop.ExhaustedIffAllRetried | src/oaipmh/client.py:305-326 | "Waited too often" is raised iff all `wait_max` attempts are retried 503s, and then after exactly `wait_max` attempts and sleeps (none when `wait_max <= 0`) |
| RetryLoop.AttemptsBounded | src/oaipmh/client.py:305-311 | at most `wait_max` attempts; a returned body is the first attempt not retried, and every earlier attempt was a retried 503 |
| RetryLoop.DefaultPolicy | src/oaipmh/client.py:14-15 | with the defaults `WAIT_MAX = 5` and `WAIT_DEFAULT = 120` that `makeRequest` relies on: at most five attempts and sleeps, a 120-second sleep after a 503 whose Retry-After is not an integer, and "Waited too often" exactly when all five attempts are retried 503s |
| VerbArguments.Rewritten | src/oaipmh/client.py:31-38 | a non-`None` `from_` is removed and its encoding stored under `from`; a non-`None` `until` is replaced by its encoding; every other key and value is unchanged |
| VerbArguments.Keywords.EncodeDatestamps | src/oaipmh/client.py:31-38 | the in-place updates of `kw` (set `from`, delete `from_`, replace `until`) leave exactly the rewritten arguments |
| Client.RecordsPage | src/oaipmh/client.py:150-156 | a ListRecords page is checked for `error` elements before any mapping: a response with one raises the classified error; otherwise a failing record node raises the mapping exception of the first such node, and else the page is the mapped records and token |
| Client.IdentifiersPage | src/oaipmh/client.py:119-122 | a ListIdentifiers page raises the classified error when the response has one; otherwise a failing header node raises the mapping exception of the first such node, and else the page is the mapped headers and token |
| Client.SetsPage | src/oaipmh/client.py:164-167 | a ListSets page raises the classified error when the response has one; otherwise it is the mapped sets and token |

## Left out

- HTTP and authentication are not modelled: `Client.__init__`, `Client.makeRequest`, `ServerClient.makeRequest` (lines 262-281 and 329-335). They are urllib2 requests, headers and base64 encoding. The retry loop runs over an abstract sequence of outcomes instead.
- XML parsing is not modelled: `parse` and `ignoreBadCharacters` (lines 56-76) decode UTF-8 and replace bad characters through lxml. The model starts from an already parsed document.
- `Identify_impl` (lines 91-113) is not modelled. It only reads fields by XPath and passes them to a constructor.
- `validation.validateArguments` and the `getattr(self, verb + '_impl')` dispatch (lines 29 and 39-42) are not modelled. The validator is not part of this model, and the dispatch is reflection.
- `getNamespaces`, `getMetadataRegistry` and the registry default in `BaseClient.__init__` (lines 22-25 and 44-54) are constant accessors and are not modelled.
- Failures of `readMetadata` are not modelled. `read` is a total function, so its failures are the registry's concern.
- `time.sleep` is not modelled. Only the requested durations are recorded.
- Characters are Unicode code points. Text is a byte string exactly when it is ASCII, which mirrors lxml's choice of result type. No encoding is modelled.
- The string values of `identifier`, `datestamp`, `setName`, the set's `setSpec` and the metadata-format fields are taken as given. Two things keep their separate text nodes: a `resumptionToken`, because `string()` reads the first of them, and a header's `setSpec` children, because `oai:setSpec/text()` returns every text node.
- Pagination.ResumptionList.constructor: requires a finite page sequence that contains a page ending the list. The laziness results (`Next`, `Take`) therefore cover only harvests that end. A server that never ends the list is not modelled. The source generator would still hand out its items on demand; only draining it, or an endless run of empty pages that carry tokens, would never return.
- ResponseMapper.GetRecord: under `python -O` the `assert token is None` is removed; the model always keeps it.
- The generator's `close()` and `throw()` are not modelled. Only `next()` is.
