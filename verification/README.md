# client-proxycurl, modelled in Dafny

Two scripts keep the service desk's client records in step with a company
lookup service:

- The enrichment script (`index.js`) loads a report of client rows.
  - For each client, it looks the company up by each of the client's email
    domains, then by the client's name. If neither finds the company, it
    falls back to a fixed "no match" payload.
  - It then POSTs a sparse custom-field patch: the company-size bounds, the
    stored payload and a last-synced stamp.
- The derived-field script (`sync.js`) loads another report.
  - For each client, it fetches the detailed record and reads the stored
    payload from its `CFProxycurlPayload` custom field.
  - It then patches only the employee count and the profile URL.
- Apart from the token exchange in `getAccessToken`, which calls `fetch`
  directly, both scripts make every HTTP call through `apiCaller`
  (`utils.js`). It retries a 429 response after a 60-second wait, at most
  five attempts in all, and otherwise returns or throws at once.

The model replaces the network with oracles and keeps every decision:

- `apiCaller` takes a server behaviour `nat -> Attempt`, mapping the attempt
  index to the response or failure that attempt sees. Its result is the
  outcome, the number of attempts and the trace of requests and waits.
  - `ApiCaller.Call` is the reference definition.
  - `ApiCaller.ApiCallerLoop` follows the do-while loop, with its counter,
    response code and `continue`, and is proved equal to it.
- Each script-level call is an oracle returning a `Completion`: a value or a
  thrown error.
  - The lookup oracle is keyed by `Query`.
  - The detail fetch is keyed by client id.
  - The update is keyed by the patch.
  - JSON parsing is an oracle from text to an optional value.
  - The run's timestamps are a clock from client index to text.
- JavaScript semantics the scripts rely on are written out in `Js`:
  - truthiness;
  - property reads, where reading through `undefined`/`null` throws a
    TypeError;
  - `String(v)` / template literals;
  - loose equality against `""` and against a name.
- A run is the prefix of per-client steps up to and including the first one
  whose error escapes to the script's outer `try`. Update failures are
  caught per client and never end a run.

Modules:

- `Js`: JS values, errors and completions.
- `Text`: `split`/`join` on one character.
- `ApiCaller`: `utils.js`.
- `Patches`: the custom-field patch.
- `Runs`: the client-list load and the per-client loop shared by both
  scripts.
- `Enrichment`: `index.js`.
- `DerivedFields`: `sync.js`.

On the end of the retries, the model follows the code. After five 429
responses the loop condition fails and `apiCaller` falls off the end of its
body, returning `undefined`; it does not throw. The catch guard
`responseCode != 429 || responseCode != 401` holds for every status, so every
failure caught inside an attempt is rethrown at once, ECONNRESET included,
despite its "Retrying..." log line. The 401 token refresh is commented out,
so a 401 is thrown like any other error status. A design that throws on
exhaustion, retries connection resets or refreshes tokens is not what the
code does, and is not modelled.

## Model

| member | source | states |
|---|---|---|
| ApiCaller.Headers | utils.js:54-59 | The header keys are Content-Type, Connection, the caller's keys, and Authorization exactly when the token is truthy. Caller headers win. Content-Type is the caller's value or application/json. Connection is keep-alive unless overridden. Authorization is "Bearer " followed by the token's text. |
| ApiCaller.CatchAlwaysRethrows | utils.js:97-99 | The catch guard holds for every response code, including none, 429 and 401, so every caught error is rethrown. |
| ApiCaller.Settle | utils.js:75-99 | An attempt that is not a 429 ends the call. A fault raises its error. A non-2xx status raises an HTTP error with that status. An ok response with `json` returns its parsed body, or raises a SyntaxError when the body does not parse. An ok response without `json` returns the raw response. |
| ApiCaller.CallFrom | utils.js:43-101 | Starting after k rate-limited attempts, the call ends within the retry limit. Every attempt before the last was a 429. The call is exhausted exactly when the last attempt was a 429, and then all five were made. Otherwise the last attempt settles the call. |
| ApiCaller.Call | utils.js:37-102 | Between 1 and 5 attempts are made, and every attempt but the last was a 429. The call returns undefined (Exhausted) exactly when the first five attempts were all 429s, and then all five were made. Otherwise the last attempt was not a 429 and decides the result. |
| ApiCaller.RoundsAlternate | utils.js:69-73 | The retry rounds alternate between sending the request and a 60000 ms wait. |
| ApiCaller.CallTrace | utils.js:43-101 | The trace sends the same request on every attempt. A 60000 ms wait separates consecutive attempts. A trailing wait follows the last attempt exactly when it was a 429. |
| ApiCaller.SkipRateLimited | utils.js:69-73 | Rate-limited attempts only advance the loop: continuing after them is the same as starting over. |
| ApiCaller.CallEndsWith | utils.js:43-101 | A loop exit after k attempts, following k-1 rate-limited ones, yields exactly the reference outcome with that result and transcript. |
| ApiCaller.ApiCallerLoop | utils.js:37-102 | The do-while loop, with its tryCount, responseCode and continue, computes exactly the reference call outcome, trace included. |
| ApiCaller.AwaitedCall | utils.js:69-102 | In terms of the server alone: the awaiting script gets a value exactly when all five attempts were 429s, or when some attempt after only 429s answered ok with a parseable body. In the second case the value is that body. Every other server behaviour makes the await throw. |
| ApiCaller.JsonCallNeverRaw | utils.js:85-89 | With `json` true, the raw response is never returned. |
| ApiCaller.EndsAtFirstOther | utils.js:69-101 | After k-1 rate-limited attempts, a non-429 attempt k ends the call after exactly k attempts with that attempt's settlement. |
| ApiCaller.OkReturnsOnThatAttempt | utils.js:81-89 | An ok status on attempt k, after only 429s, ends the call after exactly k attempts. With `json`, the result is the parsed body when it parses. Without `json`, the result is the raw response whether or not the body parses. |
| ApiCaller.ErrorStatusIsThrown | utils.js:75-83 | Any other non-ok status, 401 included, raises an HTTP error on that attempt with no further attempt. |
| ApiCaller.FaultIsRethrown | utils.js:90-99 | A fault thrown during an attempt, ECONNRESET included, is rethrown at once with no further attempt. |
| ApiCaller.UnreadableBodyIsThrown | utils.js:85-87 | An ok response whose body is not JSON raises a SyntaxError on that attempt. |
| ApiCaller.ThreeRateLimitsThenOk | utils.js:43-101 | Three 429s then a 200 yield the 200's body after exactly 4 attempts, with a wait after each 429. |
| ApiCaller.FiveRateLimitsReturnUndefined | utils.js:69-102 | Five 429s make exactly five attempts of the same request, each followed by a 60000 ms wait, and the script sees undefined: nothing is thrown and there is no sixth attempt. |
| Text.JoinSplit | index.js:63 | Joining the pieces of a split with the separator gives back the original string. |
| Text.SplitJoin | index.js:63 | Splitting a join of separator-free pieces gives back those pieces, empty ones included. |
| Js.NatTextRoundTrip | index.js:137 | The decimal text of a number reads back as that number. |
| Enrichment.DomainList | index.js:63 | A field loosely equal to "" gives no domains. A string gives the comma-separated pieces, in order, untrimmed, with empty pieces kept; they join back to the field. Any other value throws a TypeError. |
| Enrichment.TryLookup | index.js:71-90 | An accepted lookup (a value with a truthy url) becomes the working result. A rejected, thrown or undefined lookup leaves a falsy working value falsy. |
| Enrichment.FirstAccepted | index.js:67-92 | The reference domain strategy: the first domain whose lookup is accepted, with every earlier domain rejected, or none when no domain is accepted. |
| Enrichment.SearchDomains | index.js:67-92 | The domain loop queries domains in list order and stops at the first accepted one, with no later domain queried. If none is accepted, it queries every domain and the working value stays falsy. |
| Enrichment.Resolve | index.js:66-126 | The resolved payload is always truthy. If a domain matches, the payload is that lookup's value and only the domain queries up to it are made. Otherwise all domains are queried, then the name once. The payload is the name lookup's value when accepted, and the default failure payload otherwise. |
| Enrichment.NameLookupExactlyOnceIffNoDomainMatch | index.js:94-116 | A query is a name lookup exactly when no domain was accepted and it is the last query. So the name is looked up exactly once in that case and never otherwise. |
| Enrichment.NoDomainsQueriesName | index.js:63-107 | With no email domains, the only query is the name lookup. |
| Enrichment.PayloadIsAcceptedOrDefault | index.js:118-126 | The payload is either a lookup value with a truthy url or exactly the default failure payload. |
| Enrichment.EnrichmentPatch | index.js:129-156 | Building the patch succeeds exactly when `profile.company_size` is readable; otherwise it throws a TypeError. The patch is for the client id with isclientdetails true. Its fields are each truthy size bound, both named CFLinkedInCompanySizeUpper and holding their text, followed by the payload and then the last-synced stamp. |
| Enrichment.DefaultFailurePatch | index.js:118-156 | The default failure payload gives exactly two fields: the payload, then the last-synced stamp. |
| Enrichment.EnrichClient | index.js:59-170 | A client aborts the run exactly when no update is sent. A null row aborts before any lookup. So does a domain field that is neither a string nor loosely equal to "" (0, false, [] and [""] are loosely equal to "", give no domains, and go to the name lookup). Otherwise the queries are those of Resolve. The client aborts, with a TypeError, exactly when the payload's sizes are unreadable; if it does not, the update carries that payload's patch. The update fails exactly when it is sent and throws. |
| Enrichment.EnrichmentRun | index.js:17-174 | A failed client-list load processes no client and reports its error. Otherwise the run is the run over every client's step, in the sense of `Runs.IsRunOver`, which `Runs.RunOverIsUnique` shows determines it. The clients are processed in order up to and including the first whose error escapes to the outer `catch`, and that error ends the run. |
| Enrichment.FailedUpdateSkipsOnlyThatClient | index.js:157-170 | A client whose update throws does not stop the run: the next client is processed. |
| Runs.ClientRows | index.js:18-54 | A report whose `report.rows` is an array gives exactly that array as the client list. A thrown call, an undefined or null response, or a missing or non-array `rows` is an error before any client; every error other than the call's own is a TypeError. |
| Runs.UpToFirstAbort | index.js:59-174 | The processed steps are a prefix of all steps. Every step but the last did not abort. If the run stops early, its last step aborted. |
| Runs.CompleteIsRunOver | index.js:59-174 | The client loop over the per-client steps satisfies the run relation `IsRunOver`. The processed clients are the steps in order, up to and including the first that aborts. A run that stops early stops at an aborting client. The run's error is the last processed client's. The run ends without error exactly when every client was processed and none aborted. |
| Runs.RunOverIsUnique | sync.js:56-107 | The run relation determines the run: two runs over the same steps are equal. |
| Runs.NonAbortingStepContinues | sync.js:99-102 | A processed client that does not abort is followed by the next client. |
| DerivedFields.FindPayloadField | sync.js:66 | `find` returns the first field named CFProxycurlPayload, with every earlier field non-null and differently named. It returns none if no field has that name. A null or undefined field reached before a match throws a TypeError. |
| DerivedFields.StoredPayload | sync.js:59-67 | The result is determined for every fetch. A successful fetch whose first CFProxycurlPayload field has text that parses gives exactly the parsed value. A thrown fetch passes on its error. An undefined or null detail, a non-array `customfields`, a null field before the match, or no payload field throws a TypeError. Text that does not parse throws a SyntaxError. |
| DerivedFields.Project | sync.js:70-89 | Projection succeeds exactly when the profile is readable. It gives one field per truthy value and nothing else, so at most two fields. The employee count is present exactly when `profile.company_size_on_linkedin` is truthy, as its text, and comes first. The URL is present exactly when `url` is truthy, and comes last. |
| DerivedFields.DefaultFailureDerivesNothing | sync.js:75-86 | The default failure payload written by the enrichment pass projects to no fields. |
| DerivedFields.ExamplePayload | sync.js:75-86 | A payload with url "https://x" and 50 employees projects to the employee count "50", then the URL. |
| DerivedFields.ResolvedPayloadDerivesUrlIffMatched | sync.js:81-86 | A payload resolved by the enrichment pass derives CFLinkedInURL exactly when a lookup matched. |
| DerivedFields.SyncClient | sync.js:56-103 | A null row throws a TypeError before any fetch. Every other row gets exactly one detail fetch, by its id, and no company lookup. Failures reading the payload abort the run. Otherwise the client aborts, with a TypeError, exactly when the profile is unreadable, and the update carries exactly the projected fields. The update fails exactly when it is sent and throws. |
| DerivedFields.SyncRun | sync.js:16-107 | A failed client-list load processes no client and reports its error. Otherwise the run is the run over every client's step, in the sense of `Runs.IsRunOver`, which `Runs.RunOverIsUnique` shows determines it. The clients are processed in order up to and including the first whose error escapes to the outer `catch`, and that error ends the run. |
| DerivedFields.FailedUpdateSkipsOnlyThatClient | sync.js:90-102 | A client whose update throws does not stop the run: the next client is processed. |

## Left out

- `getAccessToken` and `logger` (utils.js) are not modelled. They are plain HTTP and file I/O; the token is an opaque value and log lines have no effect on decisions.
- The SQL text of both reports is not modelled. It runs server-side; the model takes whatever rows the report returns.
- `fetch` and URL construction are not modelled. The request URL is `baseUrl + endpoint`. A lookup's query parameters (`company_domain` or `company_name`, plus `enrich_profile=enrich`) are kept only as the kind and text of its `Query`, not as a parameter list.
- `setTimeout` is not modelled. The 60-second wait is recorded as a `Sleep` event; no time passes.
- JSON serialisation and `JSON.parse` are not modelled as text. A stored payload is kept as a structured value, and parsing is an oracle from text to an optional value.
- `new Date().toISOString()` is not modelled. Timestamps are an opaque clock, indexed by client position.
- ApiCaller.Headers: the object-spread artefact of a caller-supplied Content-Type string is not modelled. That spread also adds the string's character indices as header keys; only the effective Content-Type value is modelled.
- `Js.ToText`: numbers are integers, so floating point, NaN and exponent formatting are not modelled.
- `Js.Member` indexes a string by Unicode character, where JavaScript indexes UTF-16 code units. The two differ only on strings holding characters outside the Basic Multilingual Plane; the sizes read at index.js:134 and 140 are not expected to hold such characters.
- `Js.Member` does not model prototype properties such as `length`, and no prototype methods other than `split` and `find`. Calling `split`/`find` on a value of the wrong type throws a TypeError, as a missing method would.
- The oracles are pure functions: the same query, id or patch always gets the same answer within a run. A run can repeat a query. A duplicated email domain such as "a.com,a.com" is queried twice when the first lookup is rejected, and two rows can share a client id. The model gives such repeats the same answer, so a first lookup that throws followed by an identical one that succeeds is not represented.
- `Enrichment.EnrichClient` and `DerivedFields.SyncClient` allow the oracles any thrown error. Errors that `apiCaller` cannot actually raise, such as an HTTP error with status 429 or with an ok status, are not excluded.
- ApiCaller.FaultError names every error thrown inside an attempt, other than an error status or an unreadable body, either ConnectionReset (code ECONNRESET) or NetworkFailure. That includes the TypeError of a malformed URL and fetch's own TypeError on a network failure. The model does not distinguish these, because every one of them is rethrown at once.
- Log lines, including the per-client progress line, are not modelled. The progress line's only behavioural effect, a TypeError on a null row, is kept.
