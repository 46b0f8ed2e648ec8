/**
 * `setResponseHeaders`: which headers of the upstream reply reach the
 * client, and the cache and CORS headers the proxy always imposes. Header
 * names are taken to be in Go's canonical form already, as net/http stores
 * them.
 */
module Headers {
  import opened Multimaps

  /** `http.Header`. */
  type Header = Multimap

  const ContentDisposition: string := "Content-Disposition"
  const ContentType: string := "Content-Type"
  const ContentLength: string := "Content-Length"
  const CacheControl: string := "Cache-Control"
  const AllowOrigin: string := "Access-Control-Allow-Origin"
  const AllowMethods: string := "Access-Control-Allow-Methods"

  /** The long-lived caching policy forced on every relayed asset. */
  const CacheMaxAge: string := "max-age=31536000, public"
  const AnyOrigin: string := "*"
  const AllowedMethods: string := "GET, OPTIONS"

  /** The header names `setResponseHeaders` may write. */
  const Managed: set<string> :=
    {ContentDisposition, ContentType, ContentLength, CacheControl, AllowOrigin, AllowMethods}

  /**
   * The client's header map after `setResponseHeaders(w, resp, mediaType)`,
   * given the map `w` held before and the upstream reply's headers.
   */
  function RelayHeaders(w: Header, upstream: Header, mediaType: string): (r: Header)
    ensures CacheControl in r && r[CacheControl] == [CacheMaxAge]
    ensures AllowOrigin in r && r[AllowOrigin] == [AnyOrigin]
    ensures AllowMethods in r && r[AllowMethods] == [AllowedMethods]
    ensures ContentType in r
    ensures First(upstream, ContentType) != "" ==> r[ContentType] == [First(upstream, ContentType)]
    ensures First(upstream, ContentType) == "" ==> r[ContentType] == [mediaType]
    ensures ContentLength in r && r[ContentLength] == [First(upstream, ContentLength)]
    ensures First(upstream, ContentDisposition) != "" ==>
              ContentDisposition in r && r[ContentDisposition] == [First(upstream, ContentDisposition)]
    ensures First(upstream, ContentDisposition) == "" ==>
              (ContentDisposition in r <==> ContentDisposition in w)
              && (ContentDisposition in w ==> r[ContentDisposition] == w[ContentDisposition])
    ensures forall k :: k in r && k !in Managed ==> k in w && r[k] == w[k]
    ensures forall k :: k in w && k !in Managed ==> k in r && r[k] == w[k]
  {
    var disposition := First(upstream, ContentDisposition);
    var h := if disposition != "" then w[ContentDisposition := [disposition]] else w;
    var contentType := if First(upstream, ContentType) == "" then mediaType else First(upstream, ContentType);
    h[ContentType := [contentType]]
     [ContentLength := [First(upstream, ContentLength)]]
     [CacheControl := [CacheMaxAge]]
     [AllowOrigin := [AnyOrigin]]
     [AllowMethods := [AllowedMethods]]
  }

  /** The relayed `Content-Type` is never empty while the fallback is not. */
  lemma ContentTypeNeverEmpty(w: Header, upstream: Header, mediaType: string)
    requires mediaType != ""
    ensures First(RelayHeaders(w, upstream, mediaType), ContentType) != ""
  {
  }

  /** The header map of a `http.ResponseWriter`, updated in place. */
  class HeaderMap {
    var fields: Header

    constructor (init: Header)
      ensures fields == init
    {
      fields := init;
    }

    /** `Header().Get(key)`. */
    function Get(key: string): string
      reads this
    {
      First(fields, key)
    }

    /** `Header().Set(key, value)`: the key now holds exactly `value`. */
    method Set(key: string, value: string)
      modifies this
      ensures fields == old(fields)[key := [value]]
    {
      fields := fields[key := [value]];
    }
  }

  /** `setResponseHeaders`, one `Header().Set` call at a time. */
  method SetResponseHeaders(w: HeaderMap, upstream: Header, mediaType: string)
    modifies w
    ensures w.fields == RelayHeaders(old(w.fields), upstream, mediaType)
  {
    var contentDisposition := First(upstream, ContentDisposition);
    if contentDisposition != "" {
      w.Set(ContentDisposition, contentDisposition);
    }
    var contentType := First(upstream, ContentType);
    if contentType == "" {
      contentType := mediaType;
    }
    w.Set(ContentType, contentType);
    w.Set(ContentLength, First(upstream, ContentLength));
    w.Set(CacheControl, CacheMaxAge);
    w.Set(AllowOrigin, AnyOrigin);
    w.Set(AllowMethods, AllowedMethods);
  }
}
