# Platify website: a verified model of its decision logic

The Platify website is a Go web server (`main.go`). It fetches recipes and
products from an upstream API and renders them as HTML pages. It also
accepts image uploads from the recipe editor. Most of the file is routing,
HTTP and template plumbing. This project models the small pieces of
decision logic inside that plumbing and proves their properties in Dafny:

- the template helpers `formatQty`, `inc` and `dict` (module `TemplateFuncs`);
- the configuration strings `apiBase` and `listenAddr` (module `Config`);
- the request URL and the classification of an upstream reply in
  `fetchRecipe` / `fetchProduct` (module `Upstream`);
- the page handlers `handleRecipe`, `handleProduct` and `renderError`
  (module `Pages`, over the response log of module `Http`);
- the check sequence, extension table and filename format of
  `handleImageUpload` (modules `Upload` and `Naming`).

Two small shared modules hold `Option` (`Wrappers`) and Go's fixed-width
integer ranges `int64` and `uint32` (`GoTypes`).

Everything effectful is an input:

- Environment variables are plain strings; an unset variable is "", as `os.Getenv` returns.
- The network is an oracle `net: string -> Exchange<R>` from request URL to outcome.
  An outcome is a rejected request, a transport failure, or a reply. A reply carries
  its status and the record that decoding its body would give (None if decoding fails).
- `http.DetectContentType` is an uninterpreted function `sniff` of the header bytes.
- `time.Now().UnixNano()` and `rand.Uint32()` are an `Int64` and a `Uint32` parameter.
- The outcomes of `os.MkdirAll` and `SaveUploadedFile` are fixed by a `Disk` object.
  The `Disk` records the calls made, in order.
- A gin `Context` records the responses written, in order.

Go's `(*Record, error)` result is kept as the pair `FetchResult(record, err)`.
The handlers therefore test the error first and the nil record second, as the code does.
A panic in `dict` (a non-string key fails the `.(string)` assertion) is modelled as `None`.

The identifier is appended to the URL verbatim, without path-escaping (main.go:175, main.go:204),
and the model does the same (`Upstream.RequestUrl`).
`Upstream.Fetch` asks the network oracle for that URL and classifies the outcome; the page handlers call it.

## Model

| member | source | states |
|---|---|---|
| `TemplateFuncs.FormatQty` | main.go:122-133 | Result is empty iff both parts are; the quantity is a prefix and the unit a suffix; exactly one space separates them when both are non-empty; length fixes the rest (the four-case table) |
| `TemplateFuncs.FormatQtyIsJoinNonEmpty` | main.go:121-133 | formatQty equals the space-join of its non-empty arguments (independent reference definition) |
| `TemplateFuncs.Inc` | main.go:141-144 | inc adds one, wrapping from the largest 64-bit int to the smallest as Go's int does |
| `TemplateFuncs.StepLabelsOneBased` | main.go:141-144 | For a list of n directions the labels inc(0..n-1) are exactly 1..n, strictly increasing |
| `TemplateFuncs.Dict` | main.go:114-120 | The loop stepping by two computes DictOf: the map after storing every complete pair in order, or None on a non-string key |
| `TemplateFuncs.DictContents` | main.go:114-120 | dict succeeds iff every paired key is a string; its keys are exactly the string keys of the complete pairs |
| `TemplateFuncs.DictLastWins` | main.go:116-118 | A key is bound to the value after its last occurrence, so a later duplicate overwrites an earlier one |
| `TemplateFuncs.DictIgnoresTrailing` | main.go:116 | A trailing unpaired argument does not change the result |
| `Config.TrimRightSlash` | main.go:27 | strings.TrimRight(v, "/"): result is a prefix of v, only slashes were cut, and it does not end in '/' |
| `Config.TrimRightSlashUnique` | main.go:27 | Those three properties determine the trimmed string uniquely |
| `Config.ApiBase` | main.go:25-30 | Non-empty env value: trailing slashes removed, result never ends in '/'; otherwise the default URL literally, trailing slash included |
| `Config.ApiBaseDefaultEndsInSlash` | main.go:29 | As written, apiBase ends in '/' exactly when the variable is unset or empty |
| `Config.ApiBaseIntended` | main.go:25-30 | Corrected base: never ends in '/', equals apiBase whenever the variable is set, and is the default host without its slash otherwise |
| `Config.ListenAddr` | main.go:32-37 | ":" + PORT when PORT is non-empty, else ":8080" |
| `Config.ListenAddrRoundTrip` | main.go:32-37 | The port is recovered from the address; distinct non-empty ports give distinct addresses |
| `Upstream.RequestUrl` | main.go:175 | URL is base, then "/recipes/" or "/products/", then the identifier verbatim, with no escaping |
| `Upstream.RequestUrlInjective` | main.go:204 | For a fixed base and collection, the URL determines the identifier |
| `Upstream.Classify` | main.go:179-200 | Rejected request or transport failure gives an error; 404 gives neither record nor error; any other non-200 gives an unexpected-status error; 200 gives the decoded record or a decode error; a record only on 200 with a successful decode; never both |
| `Upstream.Fetch` | main.go:174-200 | One fetch asks the network for RequestUrl(base, kind, id); a record comes back iff that exchange is a 200 reply whose body decodes, and it is the decoded record; neither record nor error iff the reply is 404; never both |
| `Upstream.BodyIgnoredUnlessOK` | main.go:218-228 | For every status other than 200 the result does not depend on the body, so a 404 body is never decoded |
| `Upstream.DefaultBaseDoubleSlash` | main.go:174-175 | As written, with API_BASE_URL unset every request URL starts "https://platify.aukespot.com//" |
| `Upstream.IntendedUrlSingleSlash` | main.go:203-204 | With the corrected base, exactly one '/' joins base and collection path for every environment value |
| `Pages.PageFor` | main.go:302-317 | An error gives 500 with the error template; no record and no error gives 404 with the error template; a record gives 200 with the content template bound to it |
| `Pages.ErrorCauseNotShown` | main.go:303-308 | The error page does not depend on the cause of the failure |
| `Pages.UpstreamToPage` | main.go:323-338 | End to end: upstream 404 gives 404; 200 with a decodable body gives 200 with that record; every other outcome gives 500 |
| `Pages.RenderError` | main.go:377-382 | Writes one response: the error template with the title and message under the status |
| `Pages.HandleRecipe` | main.go:299-318 | Fetches the recipe from apiBase() as written and writes exactly one response, the one PageFor gives |
| `Pages.HandleProduct` | main.go:320-339 | Fetches the product from apiBase() as written and writes exactly one response, the one PageFor gives |
| `Naming.FormatInt` | main.go:279 | %d of the timestamp: at least one character, each a digit or '-' |
| `Naming.Hex8` | main.go:279 | %08x of the random uint32: exactly eight lower-case hexadecimal digits |
| `Naming.FormatIntRoundTrip` | main.go:279 | The decimal rendering of any integer parses back to it |
| `Naming.HexPadRoundTrip` | main.go:279 | Zero-padded hex of a value that fits the width parses back to it |
| `Naming.Filename` | main.go:279 | The name is the decimal timestamp, '_', eight hex digits, then the extension; the first '_' follows the timestamp |
| `Naming.FilenameRoundTrip` | main.go:279 | Every filename parses back to its timestamp, random value and extension |
| `Naming.FilenameInjective` | main.go:278-279 | Distinct (timestamp, random, extension) triples give distinct filenames |
| `Upload.ExtMapTable` | main.go:260-265 | Exactly four types are accepted (jpeg, png, gif, webp) with distinct extensions, each '.' followed by letters |
| `Upload.Header` | main.go:252-258 | The sniffer is given header[:n]: exactly the n bytes the first Read returned (n <= 512), the first bytes of the file |
| `Upload.UploadOutcome` | main.go:237-289 | The status is 200, 400 or 500; a URL body iff 200; at most a mkdir then one save of the whole upload, mkdir first |
| `Upload.StoredPath` | main.go:280 | filepath.Join(uploadsDir, filename): "static/uploads/" followed by the filename, which is recovered from the path |
| `Upload.RejectedUploadWritesNothing` | main.go:238-270 | No filesystem call unless the field is present, opens, reads and sniffs as accepted; 400 exactly for a missing field or an unsupported type, and then nothing is written |
| `Upload.UploadDiskCalls` | main.go:272-286 | At most mkdir then one save; mkdir always comes first; the save happens only after a successful mkdir, inside static/uploads, with the whole upload |
| `Upload.UploadStatus` | main.go:237-289 | 200 exactly when every check and both filesystem calls succeed |
| `Upload.UploadSuccess` | main.go:279-288 | On success the file is saved as static/uploads/<filename> and the URL is "/static/uploads/" + filename |
| `Upload.DecisionSeesOnlyHeader` | main.go:252-266 | Uploads agreeing on the open, the read and the header bytes get the same response, whatever their client-declared name and type |
| `Upload.DistinctStampsDistinctFiles` | main.go:278-282 | Two successful uploads with different (timestamp, random) pairs get different paths and URLs |
| `Upload.StoredNameHasNoSeparator` | main.go:279-280 | A generated filename contains no '/', so it lands directly in the uploads directory |
| `Upload.Disk.MkdirAllDir` | main.go:272 | Records the mkdir call and reports the disk's fixed outcome |
| `Upload.Disk.SaveUploadedFile` | main.go:282 | Records the save of the whole upload and reports the disk's fixed outcome |
| `Upload.HandleImageUpload` | main.go:237-289 | Runs the checks in order and returns at the first failure; makes exactly the filesystem calls of UploadOutcome and writes exactly its one JSON response |

## Findings

| source | as written | input that shows it | evidently intended | confidence | as-written member | corrected member |
|---|---|---|---|---|---|---|
| main.go:29 | The default base keeps its trailing '/', while an environment value is trimmed, so request URLs get a doubled slash | API_BASE_URL unset, recipe id "1": the request goes to "https://platify.aukespot.com//recipes/1" | The base never ends in '/', whether set or defaulted | medium; not executed (whether the upstream tolerates "//" is unknown) | `Upstream.DefaultBaseDoubleSlash` | `Config.ApiBaseIntended` |

`Config.ApiBase` and the page handlers `Pages.HandleRecipe` and `Pages.HandleProduct` keep the code as written.
The corrected base is proved about separately (`Config.ApiBaseIntended`, `Upstream.IntendedUrlSingleSlash`).

## Left out

- `formatFloat` (main.go:135-140): it rests on float64 equality and `%.1f` formatting.
- `loadTemplates` (main.go:151-170): a directory walk plus `html/template` parsing. Template execution is not modelled either; a response records the template name and its data.
- The HTTP client, the 10-second context timeout, gin routing, `router.Run` and the 10 MB multipart limit: network and framework behaviour. Their effect appears only as `Exchange` values and the upload's form input.
- JSON decoding and the record structs (`Recipe`, `Product` and their parts): a decoded record is an opaque value of a type parameter.
- The internals of `http.DetectContentType`, `os.MkdirAll`, `SaveUploadedFile`, `time.Now` and `rand.Uint32`: they are parameters.
- `Upload.HandleImageUpload`: the 512-byte buffer and `src.Read` are not modelled in place. The read's outcome (byte count and error) is an input. The header is the file's first `n` bytes, with `n <= 512` as io.Reader guarantees.
- `Upload.StoredPath`: `filepath.Join` is modelled as joining with '/'. Its cleaning step changes nothing for these names, which contain no separator (`Upload.StoredNameHasNoSeparator`).
- Logging (`log.Printf`): it has no effect on any response.
- Probabilistic uniqueness of filenames under concurrent uploads: only the deterministic injectivity of the format is proved.
- `handleExampleRecipe`, `handleExampleProduct`, `handlePrivacyPolicy`, `handleHome`, `handleRecipeEditor` and the dev-only routes in `main`: file reads and static passthroughs with no decision logic.
