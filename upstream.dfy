/**
 * `buildFullURL`: the upstream URL for a decoded asset path. A path that is
 * not itself an absolute URL is placed under the asset host; with
 * `type=image` the request is routed through the resizer, whose path takes
 * the form `/insecure/{dimensions}/plain/{source}`.
 */
module Upstream {
  import opened Wrappers
  import opened GoStrings
  import opened Multimaps
  import opened Urls

  /**
   * What `buildFullURL` hands to `fetchAsset`: either a URL string used as
   * it is, or the parsed resizer URL with its path overwritten (how
   * `u.String()` serialises it is not modelled).
   */
  datatype Target = Direct(url: string) | Resized(resizer: Url)

  /** The source URL: the path itself when absolute, else `{assetsHost}/assets/{path}`. */
  function SourceURL(parse: Parser, assetsHost: string, urlPath: string): string {
    if IsValidURL(parse, urlPath) then urlPath else assetsHost + "/assets/" + urlPath
  }

  /**
   * The dimension component for the resizer: `w:{w}`, `h:{h}`, `w:{w}/h:{h}`
   * or nothing, by which of width and height are non-empty. The values are
   * passed through without any numeric check.
   */
  function Dimensions(width: string, height: string): (comp: string)
    ensures comp == "" <==> width == "" && height == ""
  {
    if width != "" && height != "" then "w:" + width + "/h:" + height
    else if width != "" then "w:" + width
    else if height != "" then "h:" + height
    else ""
  }

  /** The resizer path for a dimension component and a source URL. */
  function ResizerPath(comp: string, src: string): string {
    if comp != "" then "/insecure/" + comp + "/plain/" + src else "/insecure/plain/" + src
  }

  /**
   * The upstream target for `urlPath` under the query `query`, or `None`
   * where Go's handler panics: with `type=image` and a resizer host that
   * `url.Parse` rejects, `u` is nil and the assignment to `u.Path`
   * dereferences it.
   */
  function FullURL(parse: Parser, assetsHost: string, resizerHost: string,
                   query: Multimap, urlPath: string): Option<Target>
  {
    var src := SourceURL(parse, assetsHost, urlPath);
    if First(query, "type") != "image" then Some(Direct(src))
    else
      match parse(resizerHost)
      case None => None
      case Some(u) =>
        var comp := Dimensions(First(query, "w"), First(query, "h"));
        Some(Resized(u.(path := ResizerPath(comp, src))))
  }

  /**
   * `buildFullURL` step by step: `urlPath` is reassigned, `comp` is set by
   * three independent `if`s, and only the `path` field of the parsed
   * resizer URL is overwritten.
   */
  method BuildFullURL(parse: Parser, assetsHost: string, resizerHost: string,
                      query: Multimap, urlPath: string) returns (r: Option<Target>)
    ensures r == FullURL(parse, assetsHost, resizerHost, query, urlPath)
  {
    var path := urlPath;
    if !IsValidURL(parse, path) {
      path := assetsHost + "/assets/" + path;
    }
    var contentType := First(query, "type");
    if contentType == "image" {
      var width := First(query, "w");
      var height := First(query, "h");
      var parsed := parse(resizerHost);
      var comp := "";
      if width != "" && height == "" {
        comp := "w:" + width;
      }
      if height != "" && width == "" {
        comp := "h:" + height;
      }
      if width != "" && height != "" {
        comp := "w:" + width + "/h:" + height;
      }
      if parsed.None? {
        return None;
      }
      var u := parsed.value;
      if comp != "" {
        u := u.(path := "/insecure/" + comp + "/plain/" + path);
      } else {
        u := u.(path := "/insecure/plain/" + path);
      }
      return Some(Resized(u));
    }
    return Some(Direct(path));
  }

  /** Without `type=image` the target is the source URL itself. */
  lemma NonImageTarget(parse: Parser, assetsHost: string, resizerHost: string,
                       query: Multimap, urlPath: string)
    requires First(query, "type") != "image"
    ensures IsValidURL(parse, urlPath) ==>
              FullURL(parse, assetsHost, resizerHost, query, urlPath) == Some(Direct(urlPath))
    ensures !IsValidURL(parse, urlPath) ==>
              FullURL(parse, assetsHost, resizerHost, query, urlPath)
                == Some(Direct(assetsHost + "/assets/" + urlPath))
  {
  }

  /** What the resizing service reads back from a resizer path. */
  datatype ResizeRequest = ResizeRequest(width: string, height: string, source: string)

  const InsecurePrefix: string := "/insecure/"

  /**
   * The segments after `/insecure/`: `w:{w}` and `h:{h}` options up to the
   * segment `plain`, after which the rest is the source URL.
   */
  function ParseOptions(s: string, width: string, height: string): Option<ResizeRequest>
    decreases |s|
  {
    var i := IndexOf(s, '/');
    if i == |s| then None
    else
      var seg := s[..i];
      var rest := s[i + 1..];
      if seg == "plain" then Some(ResizeRequest(width, height, rest))
      else if |seg| >= 2 && seg[..2] == "w:" then ParseOptions(rest, seg[2..], height)
      else if |seg| >= 2 && seg[..2] == "h:" then ParseOptions(rest, width, seg[2..])
      else None
  }

  /** The reading of a resizer path, the partner of `ResizerPath` and `Dimensions`. */
  function ParseResizerPath(p: string): Option<ResizeRequest> {
    if |p| >= |InsecurePrefix| && p[..|InsecurePrefix|] == InsecurePrefix
    then ParseOptions(p[|InsecurePrefix|..], "", "")
    else None
  }

  /** The first `/` of `x + "/" + y` is the one after `x` when `x` has none. */
  lemma IndexOfSlash(x: string, y: string)
    requires '/' !in x
    ensures IndexOf(x + "/" + y, '/') == |x|
  {
    var s := x + "/" + y;
    assert forall k :: 0 <= k < |x| ==> s[k] == x[k] && x[k] in x;
    assert s[|x|] == '/' && s[..|x| + 1][|x|] == '/';
  }

  /** One option segment is consumed and the rest is read on. */
  lemma ParseOptionsStep(seg: string, rest: string, width: string, height: string)
    requires '/' !in seg
    ensures ParseOptions(seg + "/" + rest, width, height) ==
              if seg == "plain" then Some(ResizeRequest(width, height, rest))
              else if |seg| >= 2 && seg[..2] == "w:" then ParseOptions(rest, seg[2..], height)
              else if |seg| >= 2 && seg[..2] == "h:" then ParseOptions(rest, width, seg[2..])
              else None
  {
    var s := seg + "/" + rest;
    IndexOfSlash(seg, rest);
    assert s[..|seg|] == seg;
    assert s[|seg| + 1..] == rest;
  }

  /** An option segment `{key}{value}` holds no `/`, is not `plain`, and splits back into its key and value. */
  lemma OptionSegment(key: string, value: string)
    requires key == "w:" || key == "h:"
    requires '/' !in value
    ensures var o := key + value;
            '/' !in o && o != "plain" && |o| >= 2 && o[..2] == key && o[2..] == value
  {
    var o := key + value;
    assert o[..2] == key && o[2..] == value;
    assert o[0] != 'p';
    forall k | 0 <= k < |o| ensures o[k] != '/' {
      if k >= 2 {
        assert o[k] == value[k - 2];
      }
    }
  }

  lemma BothLayout(width: string, height: string, src: string)
    ensures "w:" + width + "/h:" + height + "/plain/" + src
              == ("w:" + width) + "/" + (("h:" + height) + "/" + ("plain/" + src))
  {
    assert "/h:" + height == "/" + ("h:" + height);
    assert "/plain/" + src == "/" + ("plain/" + src);
  }

  /** The options `w:{w}` and then `h:{h}`, then `plain`, read back. */
  lemma ParseBothOptions(width: string, height: string, src: string)
    requires '/' !in width && '/' !in height
    ensures ParseOptions("w:" + width + "/h:" + height + "/plain/" + src, "", "")
              == Some(ResizeRequest(width, height, src))
  {
    var w, h, tail := "w:" + width, "h:" + height, "plain/" + src;
    BothLayout(width, height, src);
    OptionSegment("w:", width);
    OptionSegment("h:", height);
    ParseOptionsStep(w, h + "/" + tail, "", "");
    assert ParseOptions(w + "/" + (h + "/" + tail), "", "") == ParseOptions(h + "/" + tail, width, "");
    ParseOptionsStep(h, tail, width, "");
    assert ParseOptions(h + "/" + tail, width, "") == ParseOptions(tail, width, height);
    assert tail == "plain" + "/" + src;
    ParseOptionsStep("plain", src, width, height);
  }

  /** A single option `{key}{value}` and then `plain`, read back. */
  lemma ParseOneOption(key: string, value: string, src: string, width: string, height: string)
    requires key == "w:" || key == "h:"
    requires value != "" && '/' !in value
    requires width == (if key == "w:" then value else "")
    requires height == (if key == "h:" then value else "")
    ensures ParseOptions(key + value + "/plain/" + src, "", "") == Some(ResizeRequest(width, height, src))
  {
    var o, tail := key + value, "plain/" + src;
    assert key + value + "/plain/" + src == o + "/" + tail;
    OptionSegment(key, value);
    ParseOptionsStep(o, tail, "", "");
    assert tail == "plain" + "/" + src;
    ParseOptionsStep("plain", src, width, height);
  }

  /**
   * The resizer gets back exactly the width, height and source URL that
   * were put into the path, as long as width and height hold no `/`.
   */
  lemma ResizerPathRoundTrip(width: string, height: string, src: string)
    requires '/' !in width && '/' !in height
    ensures ParseResizerPath(ResizerPath(Dimensions(width, height), src))
              == Some(ResizeRequest(width, height, src))
  {
    var comp := Dimensions(width, height);
    var p := ResizerPath(comp, src);
    var rest := if comp != "" then comp + "/plain/" + src else "plain/" + src;
    assert p == InsecurePrefix + rest;
    assert p[|InsecurePrefix|..] == rest;
    if width != "" && height != "" {
      ParseBothOptions(width, height, src);
    } else if width != "" {
      ParseOneOption("w:", width, src, width, height);
    } else if height != "" {
      ParseOneOption("h:", height, src, width, height);
    } else {
      assert rest == "plain" + "/" + src;
      ParseOptionsStep("plain", src, "", "");
    }
  }

  /**
   * With `type=image` and a resizer host that parses to `u`, the target is
   * `u` with only its path replaced by the resizer path for the requested
   * dimensions and the source URL. When neither dimension holds a `/`, the
   * resizer reads that path back as exactly those dimensions and that
   * source.
   */
  lemma ImageTarget(parse: Parser, assetsHost: string, resizerHost: string,
                    query: Multimap, urlPath: string, u: Url)
    requires First(query, "type") == "image"
    requires parse(resizerHost) == Some(u)
    ensures var r := FullURL(parse, assetsHost, resizerHost, query, urlPath);
            var src := SourceURL(parse, assetsHost, urlPath);
            r == Some(Resized(u.(path := ResizerPath(Dimensions(First(query, "w"), First(query, "h")), src))))
    ensures var r := FullURL(parse, assetsHost, resizerHost, query, urlPath);
            var width, height := First(query, "w"), First(query, "h");
            '/' !in width && '/' !in height ==>
              && r.Some? && r.value.Resized?
              && ParseResizerPath(r.value.resizer.path)
                   == Some(ResizeRequest(width, height, SourceURL(parse, assetsHost, urlPath)))
  {
    var width, height := First(query, "w"), First(query, "h");
    if '/' !in width && '/' !in height {
      ResizerPathRoundTrip(width, height, SourceURL(parse, assetsHost, urlPath));
    }
  }

  /** The image route fails, as a nil dereference, exactly when the resizer host does not parse. */
  lemma ImagePanics(parse: Parser, assetsHost: string, resizerHost: string,
                    query: Multimap, urlPath: string)
    ensures (FullURL(parse, assetsHost, resizerHost, query, urlPath).None?
             <==> First(query, "type") == "image" && parse(resizerHost).None?)
  {
  }
}
