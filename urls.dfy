/** The parts of Go's `net/url` that the proxy relies on, kept abstract. */
module Urls {
  import opened Wrappers

  /** The fields of a parsed `url.URL` that `u.String()` prints. */
  datatype Url = Url(scheme: string, userInfo: string, host: string, path: string,
                     rawQuery: string, fragment: string)

  /** `url.Parse`: its grammar is not modelled, so any parser may stand here. */
  type Parser = string -> Option<Url>

  /** `isValidURL`: `s` parses and has a non-empty scheme and host. */
  predicate IsValidURL(parse: Parser, s: string) {
    match parse(s)
    case None => false
    case Some(u) => u.scheme != "" && u.host != ""
  }
}
