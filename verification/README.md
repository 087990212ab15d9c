# Unsplash MCP connector — a Dafny model

The connector exposes one protocol tool, `search_photo`, which forwards a
photo search to the Unsplash API and hands the JSON reply back. It runs over
stdio or over HTTP with server-sent events. This project models its three
pieces of logic and proves properties about them:

- **Configuration** (`src/config.ts`, module `Config`). The API key and the
  port are each resolved by precedence. For the key: the command line, then
  the environment, otherwise the process exits with status 1. For the port:
  the command line, then `PORT` read with `parseInt(_, 10)`, then 3333. Each
  value records where it came from (`cli`, `env` or `default`). Outside stdio
  mode a summary is printed, and it shows only the masked key.
- **The `search_photo` handler** (`src/server.ts`, module `SearchTool`).
  It covers:
  - the argument schema with its four enums;
  - the defaults for absent arguments;
  - the ordered list of query parameters, where the optional ones are sent
    only when they are truthy;
  - the `Client-ID` authorization header;
  - the single text item it returns, for both success and failure.
- **SSE session routing** (`src/server.ts`, module `SseRouting`). The HTTP
  mode keeps one session slot. `GET /sse` overwrites it. `POST /messages`
  goes to the session in the slot, or gets a 400 reply if the slot is empty.

Two support modules are shared. `Wrappers` holds `Option` and `Result`.
`JsValues` holds the JavaScript semantics the code relies on: a number that
may be NaN, truthiness, `parseInt(s, 10)`, and the decimal rendering of an
integer (how axios writes `page` and `per_page` into the query string).

Side effects are turned into inputs or results:
- the parsed command line and the environment are inputs;
- the stdio-mode flag is an input;
- the console summary and `process.exit(1)` are results;
- the upstream HTTP call is a function parameter
  `UpstreamRequest -> Upstream`, whose outcome is either the pretty-printed
  payload text or the text of the thrown error.

A few behaviours of the code are easy to miss, and the model keeps them:
- **`page`.** The schema (`z.number()`) accepts any number, and the handler
  forwards 0 and negative pages unchanged.
- **`PORT`.** The environment value is read with `parseInt(_, 10)`, so
  `"8080abc"` gives 8080 and a value with no leading digits gives NaN (still
  tagged `env`). A `--port 0` on the command line is falsy, so resolution
  falls through to the environment.
- **The masked key.** For keys longer than four characters, the last four
  are shown. `MaskRevealsOnlyLastFour` states the exact guarantee: two keys
  mask alike exactly when both are short, or both are long and end in the
  same four characters.

## Model

| member | source | states |
|---|---|---|
| JsValues.ParseIntReadsDecimal | src/config.ts:69 | `parseInt(_, 10)` recovers any integer from its decimal text, with or without leading white space and with any non-digit text after it. |
| JsValues.ParseInt | src/config.ts:69 | The result is a number exactly when digits follow the optional sign after the white space; its sign follows a leading `-`. |
| JsValues.ParseIntNaN | src/config.ts:69 | Text whose first non-white-space character is not a sign or a digit parses to NaN. |
| Config.MaskApiKey | src/config.ts:18-21 | The masked key always starts with `****`. A key of length ≤ 4 gives exactly `****`. A longer key gives 8 characters ending in its last four. |
| Config.MaskRevealsOnlyLastFour | src/config.ts:18-21 | Two keys mask alike if and only if both have length ≤ 4, or both are longer and share their last four characters. No other part of the key is visible. |
| Config.ResolveKey | src/config.ts:55-62 | A non-empty CLI key wins, with source `cli`. Otherwise a non-empty env key is used, with source `env`. Otherwise there is no key. Any key found is non-empty. |
| Config.CliKeyOverridesEnv | src/config.ts:56-58 | With a non-empty CLI key, the resolved key and its source do not depend on the environment. |
| Config.ResolvePort | src/config.ts:64-71 | A truthy CLI port (not 0 or NaN) wins, with source `cli`. Otherwise a non-empty `PORT` is read with `parseInt`, with source `env`. Otherwise the port is 3333, with source `default`. |
| Config.EnvPortIsParsedInBaseTen | src/config.ts:68-70 | An env `PORT` of `"8080"` with no CLI port yields port 8080 with source `env`. |
| Config.Resolve | src/config.ts:45-77 | Resolution succeeds if and only if one source gives a non-empty key. Any config it returns has a non-empty key from `cli` or `env`, and a port as the port precedence gives it. |
| Config.KeyAndPortIndependent | src/config.ts:55-71 | The resolved key and its source depend only on the key inputs. The resolved port and its source depend only on the port inputs. |
| Config.Summarize | src/config.ts:79-87 | A summary is printed if and only if the server is not in stdio mode. It holds the masked key, never the raw one, with the source tags and the port. |
| Config.SummaryHidesKey | src/config.ts:80-85 | Two configurations that differ only in their keys print identical summaries when the keys mask alike: both have at most four characters, or both are longer and end in the same four characters. |
| Config.GetServerConfig | src/config.ts:29-91 | The process exits with status 1 if and only if neither source gives a key. Otherwise it returns the resolved config, with a masked summary outside stdio mode only. |
| SearchTool.ParseOrderBy | src/server.ts:51 | `order_by` accepts exactly `latest` and `relevant`, and parsing inverts the name. |
| SearchTool.ParseContentFilter | src/server.ts:53 | `content_filter` accepts exactly `low` and `high`, and parsing inverts the name. |
| SearchTool.ParseColor | src/server.ts:54-57 | `color` accepts exactly the listed color names, and parsing inverts the name. |
| SearchTool.ParseOrientation | src/server.ts:58 | `orientation` accepts exactly `landscape`, `portrait` and `squarish`, and parsing inverts the name. |
| SearchTool.ElevenColors | src/server.ts:54-57 | There are exactly eleven colors, every color is listed, and their names are pairwise distinct. |
| SearchTool.Validate | src/server.ts:47-59 | Arguments are accepted if and only if every present enum field names a listed value. Accepted arguments keep the query, the numbers and `collections` unchanged, and each enum field holds the value its name denotes. |
| SearchTool.ValidateAcceptsWellTyped | src/server.ts:47-59 | Validation accepts the wire form of any well-typed argument record and returns that record unchanged. |
| SearchTool.FillDefaults | src/server.ts:62-71 | Absent `page`, `per_page`, `order_by` and `content_filter` become 1, 10, `relevant` and `low`. Supplied values and the other fields pass through unchanged. |
| SearchTool.DefaultsKeepSupplied | src/server.ts:62-71 | Defaults never override a supplied value: a request whose every defaulted field is spelled out comes back unchanged. |
| SearchTool.OmittedMeansDefault | src/server.ts:62-71 | Leaving `page`, `per_page`, `order_by` or `content_filter` out is the same as supplying 1, 10, `relevant` or `low`. |
| SearchTool.BuildParams | src/server.ts:77-86 | The list has 5 to 8 entries: the five required parameters, plus one for each truthy optional argument. |
| SearchTool.BuildParamsOrder | src/server.ts:77-82 | The list starts with `query` (verbatim), `page`, `per_page`, `order_by` and `content_filter`, in that order. |
| SearchTool.BuildParamsKeys | src/server.ts:77-85 | The parameter names are the five required ones, plus `collections`, `color` or `orientation` exactly when that argument is supplied and truthy. An empty `collections` is not sent. |
| SearchTool.BuildParamsDistinct | src/server.ts:77-86 | No parameter name occurs twice. |
| SearchTool.BuildParamsValues | src/server.ts:77-86 | Each parameter name maps to its argument's value: the decimal text for numbers and the enum's name for enums. |
| SearchTool.ParamsRoundTrip | src/server.ts:77-86 | Reading the parameter list back gives the request. The one exception is that an empty `collections` reads back as absent. |
| SearchTool.AuthHeader | src/server.ts:88 | The header is named `Authorization`, and its value carries exactly the configured API key. |
| SearchTool.CredentialExact | src/server.ts:88 | A header value carries key `k` if and only if it is `"Client-ID " + k`. |
| SearchTool.BuildRequest | src/server.ts:76-90 | The request goes to the search endpoint, with one `Authorization` header carrying the key. Its parameters have distinct names and read back as the defaulted arguments. |
| SearchTool.SearchPhoto | src/server.ts:72-106 | The result is always exactly one `text` item. On success it holds the payload text. On failure it holds `"Error fetching file: "` followed by the error. Nothing is propagated to the caller. |
| SearchTool.FailureOnlyInContent | src/server.ts:93-105 | A failed upstream call with error `e` gives the same result as a successful one whose payload text is `"Error fetching file: "` followed by `e`. The caller cannot tell failure from success. |
| SearchTool.ResultDependsOnlyOnOutcome | src/server.ts:72-106 | The result depends on the upstream service only through its outcome for the one request the handler builds. |
| SearchTool.CallTool | src/server.ts:43-60 | A call is rejected if and only if schema validation fails. Otherwise the handler's single text item is returned. |
| SearchTool.OnlyQueryUsesDefaults | src/server.ts:62-86 | A call with only `query` sends exactly `query`, `page=1`, `per_page=10`, `order_by=relevant` and `content_filter=low`. |
| SseRouting.Step | src/server.ts:137-156 | `GET /sse` puts its session in the slot. A `POST` with an empty slot gets 400 and changes nothing. Any other `POST` is delivered to the session in the slot, and the slot is unchanged. |
| SseRouting.FinalSlotIsNewest | src/server.ts:139-143 | After any sequence of requests, the slot holds the most recently opened session, or its starting value if no stream was opened. |
| SseRouting.RepliesFollowNewest | src/server.ts:137-156 | Every reply in a run is the one the newest-stream rule prescribes, given the requests before it. |
| SseRouting.PostWithoutStreamRejected | src/server.ts:148-151 | A `POST` before any `GET /sse` gets 400, and the slot stays empty. |
| SseRouting.NewestStreamReceives | src/server.ts:152-155 | A `POST` is delivered to the session of the last `GET /sse` before it. |
| SseRouting.EarlierStreamDropped | src/server.ts:139-143 | Once a newer stream opens, no later `POST` is delivered to an earlier session. |

## Left out

- The axios HTTP request and `JSON.stringify` of the response are foreign calls. The call is the function parameter `upstream`, and its outcome is given as text.
- URL-encoding of the query string is done by axios. Parameters are modelled as name/value text pairs before encoding.
- The MCP SDK is a library outside this code: `McpServer`, tool registration, `connect`, `sendLoggingMessage`, SSE stream framing and `handlePostMessage`. A delivered `POST` is modelled as reaching its session and nothing more.
- Express routing, `app.listen` and the listening messages are network plumbing.
- The `Logger` object and its rebinding after connecting only log and do not affect behaviour.
- yargs `--help`, dotenv loading and the console message wording are I/O. The parsed values are inputs, and the summary is a record rather than text.
- `src/index.ts` is bootstrap only and is not part of this model. It chooses stdio mode from `NODE_ENV`/`--stdio`, chooses the transport, and exits with status 1 when startup fails. The stdio flag is an input of `Config.GetServerConfig`.
- The race between an in-flight `POST` and a new `GET /sse` on the shared slot is concurrency. The model handles requests one at a time.
- JavaScript numbers are modelled as integers or NaN. Fractions, infinities, `-0` and the loss of precision above 2^53 are not modelled.
- `Config.MaskApiKey`: the length test and the last-four slice count Dafny characters (Unicode scalar values), not the UTF-16 code units JavaScript counts. Keys made only of characters inside the Basic Multilingual Plane mask identically. A key with characters outside it (for example `"😀😀😀"`, which JavaScript masks as `"****"` followed by two emoji) masks differently in the model.
- `Config.MaskRevealsOnlyLastFour` and `Config.SummaryHidesKey` inherit that: "the last four characters" means Dafny characters, which for keys outside the Basic Multilingual Plane is not the four UTF-16 code units JavaScript shows.
- `JsValues.ParseInt`: string length and characters are Dafny characters rather than UTF-16 code units, and the result is exact rather than rounded to a double.
- `SearchTool.Validate`: the schema's type checks are carried by the Dafny types, so ill-typed arguments cannot be expressed: a non-string `query` or `collections`, a non-number `page`/`per_page`, and a `null` or non-string value in `order_by`, `content_filter`, `color` or `orientation`. Only the enum-name checks are modelled. The SDK's error reply for rejected arguments is only the value `SchemaRejected`.
- `SseRouting.EarlierStreamDropped` assumes every stream has a fresh session identifier, as the SDK transport draws one per connection.
