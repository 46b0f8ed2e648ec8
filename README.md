# cdn-api asset proxy, modelled in Dafny

The system is a single HTTP endpoint, `GET /assets/{path...}`. It proxies
asset requests either to an asset store or, when `type=image` is in the
query, to an image-resizing service. This project models the per-request
pipeline of `main.go`:

1. The wildcard suffix is trimmed of every leading and trailing `/`. An
   empty result is refused with 400 `path is required`.
2. The trimmed path is percent-decoded as `url.QueryUnescape` does it (`+`
   becomes a space). A malformed escape is refused with 400 `invalid path`.
3. A media type is guessed from the extension of the last path element,
   cut at its first `?`. The fallback is `application/octet-stream`.
4. The upstream target is built. A path that is not an absolute URL goes
   under `{assetsHost}/assets/`. With `type=image`, the resizer URL gets
   the path `/insecure/{w:..|h:..|w:../h:..}/plain/{source}`, or
   `/insecure/plain/{source}` when neither `w` nor `h` is given.
5. The target is fetched. A transport error or any status other than 200
   is answered 500 `Error fetching asset`. A rejected reply's body is closed
   before the error is returned.
6. An accepted reply is relayed with its body unchanged and a fixed header
   policy: `Content-Disposition` when non-empty, `Content-Type` (upstream
   or the guess), `Content-Length` verbatim, and forced `Cache-Control`
   and CORS headers.

Files, one module each:

- `wrappers.dfy`: `Option`.
- `multimaps.dfy`: Go's `map[string][]string` and its `Get`.
- `gostrings.dfy`: `strings.Trim`, `filepath.Split`, `strings.Split(..)[0]`
  and `filepath.Ext`, each with a contract that characterises its result.
- `escape.dfy`: `url.QueryUnescape`. It is checked against two partners:
  a predicate saying when decoding succeeds, and `url.QueryEscape`, which
  it inverts.
- `urls.dfy`: the parsed URL record, the abstract `url.Parse`, and `IsValidURL` (main.go:75-78), which holds exactly when the string parses with a non-empty scheme and host. It is defined by that body and carries no contract of its own; `Upstream.NonImageTarget` and `Upstream.ImagePanics` state what the proxy does with it.
- `upstream.dfy`: `buildFullURL`. The method follows the Go statements
  (reassigned `urlPath`, three sequential `if`s for the dimension
  component, overwritten `u.Path`). It is proved equal to the case-split
  function `FullURL`. A reader of resizer paths serves as partner: it
  recovers width, height and source URL.
- `mediatype.dfy`: `getContentTypeFromFilename`.
- `headers.dfy`: `setResponseHeaders`. It is a method on a mutable header
  map, specified by the function `RelayHeaders`.
- `fetch.dfy`: `fetchAsset`'s status check, and a client object that
  records requests and whether a reply body is open.
- `handler.dfy`: `assetsHandler`. `Handle` is the pure specification,
  from (suffix, query, initial headers, upstream answers) to an outcome.
  It is composed of three stages: the path checks (`DecodePath`), building
  and fetching the target (`Forward`), and answering the fetch result
  (`Answer`).
  `ServeAssets` is the handler written statement by statement against a
  response-writer object. It is proved to end as `Handle` says and to
  leave no upstream body open.

Modelling choices:

- A Go string is a byte string. Here it is a Dafny `string` read one char
  per byte, so a decoded `%XY` is the char with code `0xXY`.
- `url.Parse` is a parameter `parse: string -> Option<Url>`. `isValidURL`
  holds exactly when `parse` succeeds with a non-empty scheme and host.
  The same parser reads the resizer host.
- `buildFullURL` ignores the error of `url.Parse(resizerApiHost)`. If that
  host does not parse, `u` is nil and `u.Path = …` panics. The model keeps
  this as the outcome `Panicked`, which arises only on the image route.
- The upstream services are a function `Responder` from target to answer.
  A transport error is one of its possible answers. This includes the
  client's 10-second timeout when it expires before the reply headers
  arrive.
- Paths use `/` as the only separator, as `filepath` does on Unix. The
  Windows separator `\` and volume names are not modelled.
- The image target is the parsed resizer URL record with only its `path`
  replaced. How `u.String()` prints it is not modelled.
- The extension table of `mime.TypeByExtension` is an abstract map from
  extension (dot included) to media type, constrained only to have no key
  `""`. Go's table cannot have one, because `mime.AddExtensionType` refuses
  an extension without a leading dot.
- An error body is the message of the JSON object `{"error": message}`.
- `Handle` is a function, so a repeated request against the same upstream
  answers gets an identical outcome by construction.

Where the code and the documented behaviour of the system differ, the model
follows the code:

- Only `/` is trimmed. A suffix such as `   /` is not an empty path. It is
  decoded to three spaces and fetched (`Handler.SpacesAreNotEmpty`).
- `Content-Disposition` is copied when the upstream value is non-empty,
  not merely present.
- `Content-Length` is set even when upstream sent none; it is then the
  empty string.
- The media-type fallback looks only at the last path element before its
  first `?`. The extension lookup is the table's own, so an entry with an
  empty value also falls back to the default.

## Model

| member | source | states |
|---|---|---|
| `GoStrings.Trim` | main.go:82 | the trimmed path is the infix of the suffix left after removing all leading and trailing `/`; it is empty exactly when the suffix is all `/`, and otherwise neither starts nor ends with `/` |
| `GoStrings.SplitPath` | main.go:178 | the directory and file parts concatenate to the path, the file part holds no `/`, and the directory part is empty or ends with `/` |
| `GoStrings.BeforeFirst` | main.go:180 | the result is the prefix of the file name before its first `?`, or all of it when there is none |
| `GoStrings.Ext` | main.go:182 | the extension is empty or a suffix of the path that starts with a `.` and holds no other `.` and no `/`; it is empty only when every `.` of the path has a `/` somewhere after it (so, for a slash-free name, only when the name has no dot) |
| `GoStrings.ExtEmpty` | main.go:182 | the extension is empty exactly when every `.` in the path has a `/` somewhere after it |
| `GoStrings.SplitPathOf` | main.go:178 | a path `dir + file`, with `dir` ending at a `/` and `file` slash-free, splits into exactly `dir` and `file` |
| `GoStrings.BeforeFirstOf` | main.go:180 | cutting `s + rest` at `?` gives `s` when `s` has no `?` and `rest` starts with one |
| `GoStrings.ExtOf` | main.go:182 | `filepath.Ext(stem + ext)` is `ext` for a well-formed extension, and "" for a dot-free stem |
| `Escape.QueryUnescape` | main.go:90 | decoding never lengthens the path, and yields the empty string only for the empty input |
| `Escape.UnescapeSucceedsIff` | main.go:90-96 | decoding fails exactly when some `%` is not followed by two hex digits |
| `Escape.UnescapeEscape` | main.go:90 | decoding inverts `url.QueryEscape` on every byte string |
| `Escape.UnescapePlain` | main.go:90 | a path with no `%` and no `+` decodes to itself |
| `Upstream.Dimensions` | main.go:127-136 | the dimension component is empty exactly when both `w` and `h` are empty |
| `Upstream.BuildFullURL` | main.go:116-146 | the statement-by-statement construction, with its three sequential `if`s for the component, equals the case-split `FullURL` |
| `Upstream.NonImageTarget` | main.go:117-119 | without `type=image` the target is the decoded path verbatim when it is an absolute URL, else `assetsHost + "/assets/" + path` |
| `Upstream.ImageTarget` | main.go:123-142 | with `type=image` and a resizer host that parses to `u`, the target is `u` with only its path replaced by the resizer path for the dimensions of `w` and `h` and the source URL; when neither `w` nor `h` holds a `/`, the resizer reads that path back as exactly those values |
| `Upstream.ResizerPathRoundTrip` | main.go:137-141 | the resizer path reads back as exactly the width, height and source URL put in (`w:`/`h:` options before `plain`), for values without `/` |
| `Upstream.ImagePanics` | main.go:126 | building fails (the panic on a nil `*url.URL`) exactly on the image route with a resizer host that does not parse |
| `MediaType.ContentTypeFromFilename` | main.go:177-188 | the media type is never empty and is either the default or a value of the table |
| `MediaType.MediaTypeOf` | main.go:177-188 | for a path `dir/stem.ext?rest` the media type is the table entry for `.ext`, or `application/octet-stream` when there is no entry or no extension; the table never has the empty extension as a key, since `mime.AddExtensionType` demands a leading `.` |
| `MediaType.NoExtensionDefault` | main.go:182-185 | a last element without a dot gets `application/octet-stream` |
| `MediaType.OnlyFileNameMatters` | main.go:178-182 | two paths with the same last element before `?` get the same media type |
| `Headers.RelayHeaders` | main.go:161-175 | afterwards `Cache-Control`, `Access-Control-Allow-Origin` and `Access-Control-Allow-Methods` hold their fixed values; `Content-Type` is upstream's if non-empty, else the fallback; `Content-Length` is upstream's even if empty; `Content-Disposition` is written only when upstream's is non-empty; no other key changes |
| `Headers.ContentTypeNeverEmpty` | main.go:166-170 | the relayed `Content-Type` is never empty while the fallback is not |
| `Headers.SetResponseHeaders` | main.go:161-175 | the successive `Header().Set` calls leave the header map equal to `RelayHeaders` of its old value |
| `Headers.HeaderMap.Set` | main.go:163 | `Header().Set` makes the key hold exactly the one value and nothing else changes |
| `Fetch.CheckStatus` | main.go:151-158 | a fetch succeeds exactly when the transport succeeds and the status is 200, and then passes the reply on unchanged |
| `Fetch.FetchAsset` | main.go:148-159 | one GET of the target; the result is `CheckStatus` of the answer; the body stays open exactly when the reply is accepted, so a non-200 reply's body is closed before the error is returned |
| `Fetch.Client.Get` | main.go:150 | the answer is the responder's for that target, the target is logged, and a reply comes with an open body |
| `Fetch.Client.CloseBody` | main.go:155 | the reply body is closed |
| `Handler.DecodePath` | main.go:82-96 | the path checks refuse with `path is required` exactly when the suffix is all `/`, refuse with `invalid path` exactly when the trimmed path is non-empty and badly escaped, and otherwise pass on the decoding of the trimmed path |
| `Handler.Answer` | main.go:102-112 | the answer is 200 exactly when upstream replied 200, and is then upstream's body with the relayed headers; any other answer is the 500 `Error fetching asset` error |
| `Handler.EmptyPathRejected` | main.go:82-88 | the answer is 400 `path is required` with no fetch exactly when the suffix is all `/` |
| `Handler.BadEncodingRejected` | main.go:90-96 | the answer is 400 `invalid path` with no fetch exactly when the trimmed path is non-empty and badly escaped |
| `Handler.FetchFailureReported` | main.go:100-107 | a well-formed path is decoded, the target is built from the decoding, and a rejected fetch is answered 500 `Error fetching asset` after that target was fetched |
| `Handler.SuccessRelaysUpstream` | main.go:98-112 | the answer is 200 exactly when the path is valid, the target is built and upstream answers 200; the body is then upstream's unchanged, with the relayed headers and the media type of the decoded path |
| `Handler.StatusClasses` | main.go:80-113 | every answer is 200, 400 or 500; only the 400s fetch nothing; only the 200s carry upstream bytes |
| `Handler.PanicOnlyOnBadResizerHost` | main.go:123-138 | the handler panics only on the image route with a resizer host that does not parse |
| `Handler.PhotoResizeExample` | main.go:98-112 | `photo.jpg?type=image&w=200` against an upstream with no `Content-Type` fetches `/insecure/w:200/plain/{assetsHost}/assets/photo.jpg` and relays the body as `image/jpeg` with the forced `Cache-Control`, `Access-Control-Allow-Origin: *` and `Access-Control-Allow-Methods: GET, OPTIONS` |
| `Handler.NotFoundReported` | main.go:102-107 | for a plain file name (no `/` at either end, no `%` or `+`) and a request that is not an image request, an upstream 404 becomes 500 `Error fetching asset` that carries the handler's initial headers |
| `Handler.MalformedEscapeExample` | main.go:90-96 | `%zz` is answered 400 `invalid path` with no fetch |
| `Handler.SpacesAreNotEmpty` | main.go:82-83 | a suffix of one or more spaces and then `/` is not treated as an empty path: it decodes to the spaces, and the request either fetches or panics |
| `Handler.ServeAssets` | main.go:80-113 | the handler's statements leave the response writer with the response `Handle` gives, ask the client for exactly the target `Handle` records, write nothing on a panic, and leave no upstream body open |
| `Handler.ResponseWriter.WriteHeader` | main.go:85 | only the first status written counts |
| `Handler.ResponseWriter.EncodeError` | main.go:86 | on a writer that has sent no body yet, the body becomes the JSON error with the message, and a status not yet written becomes 200 |
| `Handler.ResponseWriter.Copy` | main.go:112 | the upstream bytes are appended to the body unchanged |
| `Handler.ResponseWriter.SendError` | main.go:84-86 | on a fresh writer, setting `Content-Type: application/json`, writing the status and encoding the message sends exactly that error response |
| `Handler.ResponseWriter.Relay` | main.go:111-112 | on a fresh writer, `setResponseHeaders` followed by `io.Copy` sends status 200 with the relayed headers and the upstream body unchanged |

## Left out

- Process lifecycle: environment variables, the fatal exit on missing configuration, signal handling, `ListenAndServe` and the 10-second graceful shutdown (main.go:29-73). These are I/O and concurrency.
- Routing and the `Logger`/`Recoverer` middleware (main.go:45-49). The router's wildcard capture is the `suffix` input. A `Panicked` outcome is where `Recoverer` would answer 500; that answer is not modelled.
- The real HTTP GET, the connection pool and the client timeout (main.go:149-150). `Responder` stands for the upstream services.
- Failures while the body is copied (main.go:112). The client timeout of main.go:149 also covers reading the body, and `io.Copy`'s error is ignored. A timeout or read error there gives a 200 with a truncated body. The model copies the whole upstream body.
- The grammar of `url.Parse`, and the escaping and printing done by `u.String()` (main.go:76, 126, 142). Fields of the parsed URL beyond scheme, user info, host, path, raw query and fragment are not modelled.
- The contents of the `mime.TypeByExtension` table and its case-insensitive second lookup (main.go:182).
- JSON encoding of error bodies (main.go:86, 94, 106), including the encoder's trailing newline.
- Header-name canonicalisation by `http.Header.Set`. All names the proxy writes are canonical already, and upstream headers are taken as net/http stores them.
- The rule that header changes after the status line is written are ignored. The handler writes every header before the status, so the model reads the response headers at the end.
- Concurrency between requests. Each request is modelled on its own.
- `Upstream.ImageTarget`: the read-back by the resizer is stated only when `w` and `h` contain no `/`, for the reason given for `ResizerPathRoundTrip` below. The target itself is stated for every input.
- `Upstream.ResizerPathRoundTrip`: holds only when `w` and `h` contain no `/`. A `/` in either would make the dimension component ambiguous to the resizer; the proxy itself passes it through unchecked.
