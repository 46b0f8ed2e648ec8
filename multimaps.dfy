/** Go's `map[string][]string`, the shape of both `url.Values` and `http.Header`. */
module Multimaps {

  type Multimap = map<string, seq<string>>

  /**
   * `Get(key)` of `url.Values` and of `http.Header`: the first value stored
   * under `key`, or "" when the key is absent or has no values.
   */
  function First(m: Multimap, key: string): string
  {
    if key in m && |m[key]| > 0 then m[key][0] else ""
  }
}
