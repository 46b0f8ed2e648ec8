/**
 * `assetsHandler`: the request pipeline behind `GET /assets/{path...}`. The wildcard
 * suffix is trimmed and percent-decoded, the media type is guessed, the
 * upstream target is built and fetched, and the reply is relayed with the
 * proxy's header policy; each failure ends the request early with an error.
 */
module Handler {
  import opened Wrappers
  import opened GoStrings
  import opened Multimaps
  import opened Urls
  import opened Escape
  import opened Upstream
  import opened MediaType
  import opened Headers
  import opened Fetch

  /** The configuration read once at start-up, and the system's extension table. */
  datatype Config = Config(assetsHost: string, resizerHost: string, parse: Parser, mimeTable: MimeTable)

  const StatusBadRequest: int := 400
  const StatusInternalServerError: int := 500
  const JsonMediaType: string := "application/json"

  const PathRequired: string := "path is required"
  const InvalidPath: string := "invalid path"
  const FetchFailed: string := "Error fetching asset"

  /**
   * A response body: the JSON object `{"error": message}` (its encoding is
   * not modelled), or bytes copied from upstream.
   */
  datatype Payload = ErrorJson(message: string) | Stream(data: Bytes)

  datatype Response = Response(status: int, header: Header, payload: Payload)

  /**
   * How a request ends: with a response, recording the upstream target that
   * was fetched if any, or with a panic that escapes the handler (the
   * router's recovery middleware, not modelled here, answers it).
   */
  datatype Outcome = Served(response: Response, fetched: Option<Target>) | Panicked

  /** An error answer: `Content-Type: application/json`, then the status, then the message. */
  function ErrorResponse(initial: Header, status: int, message: string): Response {
    Response(status, initial[ContentType := [JsonMediaType]], ErrorJson(message))
  }

  /** The result of the path checks: the error message to answer 400 with, or the decoded path. */
  datatype PathResult = BadPath(message: string) | Decoded(urlPath: string)

  /**
   * Lines 82-96 of `assetsHandler`: trim the suffix, refuse an empty path,
   * percent-decode, refuse a malformed escape.
   */
  function DecodePath(suffix: string): (r: PathResult)
    ensures r == BadPath(PathRequired) <==> AllAre(suffix, '/')
    ensures r == BadPath(InvalidPath) <==> !AllAre(suffix, '/') && !WellEscaped(Trim(suffix, '/'))
    ensures r.BadPath? ==> r.message == PathRequired || r.message == InvalidPath
    ensures r.Decoded? ==> QueryUnescape(Trim(suffix, '/')) == Some(r.urlPath)
  {
    var path := Trim(suffix, '/');
    UnescapeSucceedsIff(path);
    if path == "" then BadPath(PathRequired)
    else
      match QueryUnescape(path)
      case None => BadPath(InvalidPath)
      case Some(urlPath) => Decoded(urlPath)
  }

  /**
   * Lines 102-111: the answer to a fetch result, given the guessed media
   * type. Only an accepted reply is relayed, and then with its own body.
   */
  function Answer(initial: Header, f: FetchResult, mediaType: string): (r: Response)
    ensures r.status == StatusOK <==> f.Replied? && f.reply.status == StatusOK
    ensures r.status != StatusOK ==> r == ErrorResponse(initial, StatusInternalServerError, FetchFailed)
    ensures r.status == StatusOK ==>
              r == Response(StatusOK, RelayHeaders(initial, f.reply.header, mediaType), Stream(f.reply.body))
  {
    match CheckStatus(f)
    case Rejected(_) => ErrorResponse(initial, StatusInternalServerError, FetchFailed)
    case Accepted(reply) => Response(StatusOK, RelayHeaders(initial, reply.header, mediaType), Stream(reply.body))
  }

  /** Lines 98-111 for a decoded path: guess the media type, build the target, fetch and answer. */
  function Forward(cfg: Config, query: Multimap, initial: Header, responder: Responder,
                   urlPath: string): Outcome
  {
    match FullURL(cfg.parse, cfg.assetsHost, cfg.resizerHost, query, urlPath)
    case None => Panicked
    case Some(target) =>
      Served(Answer(initial, responder(target), ContentTypeFromFilename(cfg.mimeTable, urlPath)), Some(target))
  }

  /**
   * The outcome of `assetsHandler` for the wildcard suffix `suffix` and the
   * query `query`, when the response's header map starts as `initial` and
   * the upstream services answer as `responder` says.
   */
  function Handle(cfg: Config, suffix: string, query: Multimap, initial: Header,
                  responder: Responder): Outcome
  {
    match DecodePath(suffix)
    case BadPath(message) => Served(ErrorResponse(initial, StatusBadRequest, message), None)
    case Decoded(urlPath) => Forward(cfg, query, initial, responder, urlPath)
  }

  /**
   * A suffix made only of `/` (the empty one included), and nothing else,
   * is answered 400 "path is required" without any fetch.
   */
  lemma {:induction false} EmptyPathRejected(cfg: Config, suffix: string, query: Multimap, initial: Header,
                          responder: Responder)
    ensures AllAre(suffix, '/') <==>
              Handle(cfg, suffix, query, initial, responder)
                == Served(ErrorResponse(initial, StatusBadRequest, PathRequired), None)
  {
    RefusedIff(cfg, suffix, query, initial, responder, PathRequired);
  }

  /**
   * A trimmed path with a `%` that is not followed by two hex digits, and
   * nothing else, is answered 400 "invalid path" without any fetch.
   */
  lemma {:induction false} BadEncodingRejected(cfg: Config, suffix: string, query: Multimap, initial: Header,
                            responder: Responder)
    ensures (!AllAre(suffix, '/') && !WellEscaped(Trim(suffix, '/'))) <==>
              Handle(cfg, suffix, query, initial, responder)
                == Served(ErrorResponse(initial, StatusBadRequest, InvalidPath), None)
  {
    RefusedIff(cfg, suffix, query, initial, responder, InvalidPath);
  }

  /**
   * Once the path is non-empty and well escaped, its decoding is what the
   * target is built from, the target is fetched, and any transport error
   * or status other than 200 is answered 500 "Error fetching asset".
   */
  lemma {:induction false} FetchFailureReported(cfg: Config, suffix: string, query: Multimap, initial: Header,
                             responder: Responder)
    requires !AllAre(suffix, '/') && WellEscaped(Trim(suffix, '/'))
    ensures QueryUnescape(Trim(suffix, '/')).Some?
    ensures var urlPath := QueryUnescape(Trim(suffix, '/')).value;
            var target := FullURL(cfg.parse, cfg.assetsHost, cfg.resizerHost, query, urlPath);
            target.Some? && CheckStatus(responder(target.value)).Rejected? ==>
              Handle(cfg, suffix, query, initial, responder)
                == Served(ErrorResponse(initial, StatusInternalServerError, FetchFailed), target)
  {
    UnescapeSucceedsIff(Trim(suffix, '/'));
  }

  /**
   * A request is answered 200 exactly when the path is non-empty and well
   * escaped, the target can be built, and the upstream answers 200; the
   * body is then the upstream body unchanged and the headers follow the
   * relay policy, with the media type guessed from the decoded path.
   */
  lemma {:induction false} SuccessRelaysUpstream(cfg: Config, suffix: string, query: Multimap, initial: Header,
                              responder: Responder)
    ensures var o := Handle(cfg, suffix, query, initial, responder);
            (o.Served? && o.response.status == StatusOK) <==>
              && !AllAre(suffix, '/') && WellEscaped(Trim(suffix, '/'))
              && var urlPath := QueryUnescape(Trim(suffix, '/')).value;
                 var target := FullURL(cfg.parse, cfg.assetsHost, cfg.resizerHost, query, urlPath);
                 && target.Some?
                 && responder(target.value).Replied? && responder(target.value).reply.status == StatusOK
                 && var reply := responder(target.value).reply;
                    o == Served(Response(StatusOK,
                                         RelayHeaders(initial, reply.header,
                                                      ContentTypeFromFilename(cfg.mimeTable, urlPath)),
                                         Stream(reply.body)),
                                target)
  {
    UnescapeSucceedsIff(Trim(suffix, '/'));
  }

  /**
   * Every response has status 200, 400 or 500; exactly the 400s fetch
   * nothing, and exactly the 200s carry a body from upstream.
   */
  lemma {:induction false} StatusClasses(cfg: Config, suffix: string, query: Multimap, initial: Header,
                      responder: Responder)
    ensures var o := Handle(cfg, suffix, query, initial, responder);
            o.Served? ==>
              && o.response.status in {StatusOK, StatusBadRequest, StatusInternalServerError}
              && (o.fetched.None? <==> o.response.status == StatusBadRequest)
              && (o.response.payload.Stream? <==> o.response.status == StatusOK)
  {
    match DecodePath(suffix)
    case BadPath(message) =>
    case Decoded(urlPath) =>
      match FullURL(cfg.parse, cfg.assetsHost, cfg.resizerHost, query, urlPath)
      case None =>
      case Some(target) =>
        ForwardTo(cfg, query, initial, responder, urlPath, target);
  }

  /** The only panic is the image route with a resizer host that does not parse. */
  lemma {:induction false} PanicOnlyOnBadResizerHost(cfg: Config, suffix: string, query: Multimap, initial: Header,
                                  responder: Responder)
    ensures Handle(cfg, suffix, query, initial, responder).Panicked? ==>
              First(query, "type") == "image" && cfg.parse(cfg.resizerHost).None?
  {
  }

  /**
   * `GET /assets/photo.jpg?type=image&w=200` with an upstream that answers
   * 200 with body `b` and no `Content-Type`: the resizer is asked for
   * `/insecure/w:200/plain/{assetsHost}/assets/photo.jpg`, and the client
   * gets `b` as `image/jpeg` with the forced cache and CORS headers.
   */
  lemma {:induction false} PhotoResizeExample(cfg: Config, query: Multimap, initial: Header, responder: Responder,
                                              u: Url, upstream: Header, b: Bytes)
    requires !IsValidURL(cfg.parse, "photo.jpg")
    requires cfg.parse(cfg.resizerHost) == Some(u)
    requires ".jpg" in cfg.mimeTable && cfg.mimeTable[".jpg"] == "image/jpeg"
    requires query == map["type" := ["image"], "w" := ["200"]]
    requires ContentType !in upstream
    requires forall t :: responder(t) == Replied(Reply(StatusOK, upstream, b))
    ensures var target := Resized(u.(path := "/insecure/w:200/plain/" + cfg.assetsHost + "/assets/photo.jpg"));
            var o := Handle(cfg, "photo.jpg", query, initial, responder);
            && o.Served? && o.fetched == Some(target)
            && o.response.status == StatusOK
            && o.response.payload == Stream(b)
            && o.response.header[ContentType] == ["image/jpeg"]
            && o.response.header[CacheControl] == [CacheMaxAge]
            && o.response.header[AllowOrigin] == ["*"]
            && o.response.header[AllowMethods] == [AllowedMethods]
  {
    var p := "photo.jpg";
    DecodePlain(p);
    HandleDecoded(cfg, p, query, initial, responder, p);
    PhotoQuery(query);
    var target := Resized(u.(path := "/insecure/w:200/plain/" + cfg.assetsHost + "/assets/photo.jpg"));
    PhotoTarget(cfg.parse, cfg.assetsHost, cfg.resizerHost, query, u);
    ForwardTo(cfg, query, initial, responder, p, target);
    PhotoMediaType(cfg.mimeTable);
    assert responder(target) == Replied(Reply(StatusOK, upstream, b));
    assert First(upstream, ContentType) == "";
  }

  /** A request is answered 400 with `message` and no fetch exactly when the path checks refuse it with `message`. */
  lemma {:induction false} RefusedIff(cfg: Config, suffix: string, query: Multimap, initial: Header,
                                      responder: Responder, message: string)
    ensures Handle(cfg, suffix, query, initial, responder)
              == Served(ErrorResponse(initial, StatusBadRequest, message), None)
            <==> DecodePath(suffix) == BadPath(message)
  {
    match DecodePath(suffix)
    case BadPath(m) =>
    case Decoded(urlPath) =>
      HandleDecoded(cfg, suffix, query, initial, responder, urlPath);
      match FullURL(cfg.parse, cfg.assetsHost, cfg.resizerHost, query, urlPath)
      case None =>
      case Some(target) =>
        ForwardTo(cfg, query, initial, responder, urlPath, target);
  }

  /** `DecodePath` step by step: the trimmed path is checked, then decoded. */
  lemma {:induction false} DecodeSteps(suffix: string)
    ensures Trim(suffix, '/') == "" ==> DecodePath(suffix) == BadPath(PathRequired)
    ensures Trim(suffix, '/') != "" && QueryUnescape(Trim(suffix, '/')).None? ==>
              DecodePath(suffix) == BadPath(InvalidPath)
    ensures Trim(suffix, '/') != "" && QueryUnescape(Trim(suffix, '/')).Some? ==>
              DecodePath(suffix) == Decoded(QueryUnescape(Trim(suffix, '/')).value)
  {
  }

  /** A request refused by the path checks is answered 400 with that message and fetches nothing. */
  lemma {:induction false} HandleRefused(cfg: Config, suffix: string, query: Multimap, initial: Header,
                                         responder: Responder, message: string)
    requires Trim(suffix, '/') == "" ==> message == PathRequired
    requires Trim(suffix, '/') != "" ==> QueryUnescape(Trim(suffix, '/')).None? && message == InvalidPath
    ensures Handle(cfg, suffix, query, initial, responder)
              == Served(ErrorResponse(initial, StatusBadRequest, message), None)
  {
    DecodeSteps(suffix);
  }

  /** The outcome of a request whose path decodes to `urlPath` is that of `Forward`. */
  lemma {:induction false} HandleDecoded(cfg: Config, suffix: string, query: Multimap, initial: Header,
                                         responder: Responder, urlPath: string)
    requires DecodePath(suffix) == Decoded(urlPath)
    ensures Handle(cfg, suffix, query, initial, responder) == Forward(cfg, query, initial, responder, urlPath)
  {
  }

  /** Once the target is built, the response is the answer to fetching it. */
  lemma {:induction false} ForwardTo(cfg: Config, query: Multimap, initial: Header, responder: Responder,
                                     urlPath: string, target: Target)
    requires FullURL(cfg.parse, cfg.assetsHost, cfg.resizerHost, query, urlPath) == Some(target)
    ensures Forward(cfg, query, initial, responder, urlPath)
              == Served(Answer(initial, responder(target), ContentTypeFromFilename(cfg.mimeTable, urlPath)),
                        Some(target))
  {
  }

  lemma {:induction false} PhotoQuery(query: Multimap)
    requires query == map["type" := ["image"], "w" := ["200"]]
    ensures First(query, "type") == "image" && First(query, "w") == "200" && First(query, "h") == ""
  {
  }

  lemma {:induction false} PhotoTarget(parse: Parser, assetsHost: string, resizerHost: string,
                                       query: Multimap, u: Url)
    requires !IsValidURL(parse, "photo.jpg")
    requires parse(resizerHost) == Some(u)
    requires First(query, "type") == "image" && First(query, "w") == "200" && First(query, "h") == ""
    ensures FullURL(parse, assetsHost, resizerHost, query, "photo.jpg")
              == Some(Resized(u.(path := "/insecure/w:200/plain/" + assetsHost + "/assets/photo.jpg")))
  {
    var src := assetsHost + "/assets/" + "photo.jpg";
    assert Dimensions("200", "") == "w:" + "200";
    assert "w:" + "200" == "w:200";
    assert ResizerPath("w:200", src) == "/insecure/w:200/plain/" + assetsHost + "/assets/photo.jpg";
  }

  /** A name with no `/` at either end and no `%` or `+` is its own decoded path. */
  lemma {:induction false} DecodePlain(p: string)
    requires p != [] && p[0] != '/' && p[|p| - 1] != '/'
    requires '%' !in p && '+' !in p
    ensures DecodePath(p) == Decoded(p)
  {
    assert TrimRightByte(p, '/') == p;
    assert TrimLeftByte(p, '/') == p;
    UnescapePlain(p);
  }

  lemma {:induction false} PhotoMediaType(table: MimeTable)
    requires ".jpg" in table && table[".jpg"] == "image/jpeg"
    ensures ContentTypeFromFilename(table, "photo.jpg") == "image/jpeg"
  {
    PhotoParts(table);
    PhotoName();
  }

  lemma {:induction false} PhotoParts(table: MimeTable)
    requires ".jpg" in table && table[".jpg"] == "image/jpeg"
    ensures ContentTypeFromFilename(table, "" + "photo" + ".jpg" + "") == "image/jpeg"
  {
    MediaTypeOf(table, "", "photo", ".jpg", "");
  }

  lemma {:induction false} PhotoName()
    ensures "" + "photo" + ".jpg" + "" == "photo.jpg"
  {
  }

  /**
   * The 404 case: for a plain file name (no `/` at either end, no `%` or
   * `+`), an upstream that finds nothing becomes a 500 for the client.
   */
  lemma {:induction false} NotFoundReported(cfg: Config, name: string, query: Multimap, initial: Header,
                                           responder: Responder, upstream: Header, b: Bytes)
    requires name != [] && name[0] != '/' && name[|name| - 1] != '/' && '%' !in name && '+' !in name
    requires First(query, "type") != "image"
    requires forall t :: responder(t) == Replied(Reply(404, upstream, b))
    ensures Handle(cfg, name, query, initial, responder).Served?
    ensures Handle(cfg, name, query, initial, responder).response
              == ErrorResponse(initial, StatusInternalServerError, FetchFailed)
  {
    DecodePlain(name);
    HandleDecoded(cfg, name, query, initial, responder, name);
    NonImageTarget(cfg.parse, cfg.assetsHost, cfg.resizerHost, query, name);
    var target := FullURL(cfg.parse, cfg.assetsHost, cfg.resizerHost, query, name).value;
    ForwardTo(cfg, query, initial, responder, name, target);
    assert responder(target) == Replied(Reply(404, upstream, b));
  }

  /** `%zz` cannot be decoded, so the request is refused before any fetch. */
  lemma {:induction false} MalformedEscapeExample(cfg: Config, query: Multimap, responder: Responder)
    ensures Handle(cfg, "%zz", query, map[], responder)
              == Served(ErrorResponse(map[], StatusBadRequest, InvalidPath), None)
  {
    var p := "%zz";
    assert !WellEscaped(p) by {
      assert p[0] == '%' && !IsHex(p[1]);
    }
    DecodeMalformed(p);
  }

  /** A name with no `/` at either end and a `%` without two hex digits after it is refused. */
  lemma {:induction false} DecodeMalformed(p: string)
    requires p != [] && p[0] != '/' && p[|p| - 1] != '/'
    requires !WellEscaped(p)
    ensures DecodePath(p) == BadPath(InvalidPath)
  {
    assert TrimRightByte(p, '/') == p;
    assert TrimLeftByte(p, '/') == p;
  }

  /**
   * Only `/` is trimmed: a suffix of spaces followed by `/` is not an empty
   * path; the spaces are the name, and the request goes on to be fetched.
   */
  lemma {:induction false} SpacesAreNotEmpty(cfg: Config, spaces: string, query: Multimap, initial: Header,
                                             responder: Responder)
    requires spaces != [] && AllAre(spaces, ' ')
    ensures DecodePath(spaces + "/") == Decoded(spaces)
    ensures Handle(cfg, spaces + "/", query, initial, responder).Panicked?
            || Handle(cfg, spaces + "/", query, initial, responder).fetched.Some?
  {
    assert spaces[0] == ' ' && spaces[|spaces| - 1] == ' ';
    DecodeTrailingSlash(spaces);
    HandleDecoded(cfg, spaces + "/", query, initial, responder, spaces);
  }

  /** One trailing `/` after a plain name is trimmed away and nothing else changes. */
  lemma {:induction false} DecodeTrailingSlash(p: string)
    requires p != [] && p[0] != '/' && p[|p| - 1] != '/'
    requires '%' !in p && '+' !in p
    ensures DecodePath(p + "/") == Decoded(p)
  {
    var s := p + "/";
    assert s[..|s| - 1] == p;
    assert TrimRightByte(p, '/') == p;
    assert TrimRightByte(s, '/') == p;
    assert TrimLeftByte(p, '/') == p;
    UnescapePlain(p);
  }

  /** The fetched targets of an outcome, as the client's request log sees them. */
  function Requests(fetched: Option<Target>): seq<Target> {
    match fetched
    case None => []
    case Some(t) => [t]
  }

  /** A request that fetched nothing leaves the log of fetches as it was. */
  lemma NothingRequested(log: seq<Target>)
    ensures log + Requests(None) == log
  {
  }

  /** The `http.ResponseWriter` of one request. */
  class ResponseWriter {
    const header: HeaderMap
    /** The status written so far; 0 until `WriteHeader` or the first write. */
    var code: int
    var payload: Payload

    constructor (init: Header)
      ensures fresh(header) && header.fields == init
      ensures code == 0 && payload == Stream([])
    {
      header := new HeaderMap(init);
      code := 0;
      payload := Stream([]);
    }

    /** `WriteHeader(status)`: only the first status written counts. */
    method WriteHeader(status: int)
      modifies this
      ensures code == (if old(code) == 0 then status else old(code))
      ensures payload == old(payload)
    {
      if code == 0 {
        code := status;
      }
    }

    /**
     * `json.NewEncoder(w).Encode(map[string]string{"error": message})` on a
     * writer that has sent no body yet, the only way the handler uses it.
     */
    method EncodeError(message: string)
      requires payload == Stream([])
      modifies this
      ensures code == (if old(code) == 0 then StatusOK else old(code))
      ensures payload == ErrorJson(message)
    {
      if code == 0 {
        code := StatusOK;
      }
      payload := ErrorJson(message);
    }

    /**
     * The three statements of each error exit in `assetsHandler`: set
     * `Content-Type: application/json`, write the status, encode the message.
     */
    method SendError(status: int, message: string)
      requires code == 0 && payload == Stream([]) && status != 0
      modifies this, header
      ensures Sent() == ErrorResponse(old(header.fields), status, message)
    {
      header.Set(ContentType, JsonMediaType);
      WriteHeader(status);
      EncodeError(message);
    }

    /** `io.Copy(w, body)`: the bytes are appended; a first non-empty write implies status 200. */
    method Copy(data: Bytes)
      requires payload.Stream?
      modifies this
      ensures code == (if old(code) == 0 && data != [] then StatusOK else old(code))
      ensures payload == Stream(old(payload).data + data)
    {
      if code == 0 && data != [] {
        code := StatusOK;
      }
      payload := Stream(payload.data + data);
    }

    /**
     * The success exit of `assetsHandler`: `setResponseHeaders`, then
     * `io.Copy` of the upstream body, which sends status 200.
     */
    method Relay(reply: Reply, mediaType: string)
      requires code == 0 && payload == Stream([])
      modifies this, header
      ensures Sent() == Response(StatusOK, RelayHeaders(old(header.fields), reply.header, mediaType), Stream(reply.body))
    {
      SetResponseHeaders(header, reply.header, mediaType);
      Copy(reply.body);
    }

    /** What the client receives once the handler returns: net/http sends 200 if no status was written. */
    function Sent(): Response
      reads this, header
    {
      Response(if code == 0 then StatusOK else code, header.fields, payload)
    }
  }

  /**
   * `assetsHandler` as written, statement by statement, against a fresh
   * response writer. It ends as `Handle` says, asks the client only for the
   * target `Handle` records, and leaves no upstream body open.
   */
  method ServeAssets(cfg: Config, suffix: string, query: Multimap, w: ResponseWriter, client: Client)
    returns (panicked: bool)
    requires w.code == 0 && w.payload == Stream([])
    requires !client.bodyOpen
    modifies w, w.header, client
    ensures var o := Handle(cfg, suffix, query, old(w.header.fields), client.responder);
            && (panicked <==> o.Panicked?)
            && (o.Served? ==> w.Sent() == o.response
                              && client.requested == old(client.requested) + Requests(o.fetched))
    ensures panicked ==> w.code == 0 && w.payload == Stream([])
                         && w.header.fields == old(w.header.fields)
                         && client.requested == old(client.requested)
    ensures !client.bodyOpen
  {
    ghost var initial := w.header.fields;
    NothingRequested(client.requested);
    assert (client as object) != w && (client as object) != w.header;
    var path := Trim(suffix, '/');
    if path == "" {
      HandleRefused(cfg, suffix, query, initial, client.responder, PathRequired);
      w.SendError(StatusBadRequest, PathRequired);
      return false;
    }

    var decoded := QueryUnescape(path);
    if decoded.None? {
      HandleRefused(cfg, suffix, query, initial, client.responder, InvalidPath);
      w.SendError(StatusBadRequest, InvalidPath);
      return false;
    }
    var urlPath := decoded.value;
    DecodeSteps(suffix);
    HandleDecoded(cfg, suffix, query, initial, client.responder, urlPath);

    var mediaType := ContentTypeFromFilename(cfg.mimeTable, urlPath);

    var fullURL := BuildFullURL(cfg.parse, cfg.assetsHost, cfg.resizerHost, query, urlPath);
    if fullURL.None? {
      // the nil dereference of `u.Path` panics before anything is written
      return true;
    }
    var target := fullURL.value;
    ForwardTo(cfg, query, initial, client.responder, urlPath, target);
    ghost var answer := Answer(initial, client.responder(target), mediaType);

    var resp := FetchAsset(client, target);
    if resp.Rejected? {
      assert answer == ErrorResponse(initial, StatusInternalServerError, FetchFailed);
      w.SendError(StatusInternalServerError, FetchFailed);
      return false;
    }

    assert answer == Response(StatusOK, RelayHeaders(initial, resp.reply.header, mediaType), Stream(resp.reply.body));
    w.Relay(resp.reply, mediaType);
    // the deferred `resp.Body.Close()`
    client.CloseBody();
    return false;
  }
}
