/**
 * `getContentTypeFromFilename`: the media type guessed from the extension of
 * the last path element, used when the upstream response has no
 * `Content-Type` of its own.
 */
module MediaType {
  import opened GoStrings

  const DefaultMediaType: string := "application/octet-stream"

  /**
   * The extension table behind `mime.TypeByExtension`, keyed by extension
   * with its leading dot: `mime.AddExtensionType` refuses any other key, so
   * the empty extension is never a key. Its contents depend on the host
   * system and are otherwise left open.
   */
  type MimeTable = t: map<string, string> | "" !in t witness map[]

  /** `mime.TypeByExtension(ext)`: the table entry, or "" when there is none. */
  function TypeByExtension(table: MimeTable, ext: string): string {
    if ext in table then table[ext] else ""
  }

  /** The last path element, cut at its first `?`. */
  function FileName(urlPath: string): string {
    BeforeFirst(SplitPath(urlPath).1, '?')
  }

  /**
   * `getContentTypeFromFilename(urlPath)`: the table entry for the extension
   * of `FileName(urlPath)`, and the default when the entry is missing or
   * empty. The result is never empty.
   */
  function ContentTypeFromFilename(table: MimeTable, urlPath: string): (r: string)
    ensures r != ""
    ensures r == DefaultMediaType || r in table.Values
  {
    var mimeType := TypeByExtension(table, Ext(FileName(urlPath)));
    if mimeType == "" then DefaultMediaType else mimeType
  }

  /**
   * For a path `dir + stem + ext + rest`, with `dir` ending at the last `/`,
   * `ext` the extension and `rest` a `?` remnant, the media type is the
   * table entry for `ext`, or the default when there is none; with no
   * extension at all it is always the default.
   */
  lemma MediaTypeOf(table: MimeTable, dir: string, stem: string, ext: string, rest: string)
    requires dir == [] || dir[|dir| - 1] == '/'
    requires '/' !in stem && '/' !in ext && '/' !in rest
    requires '?' !in stem && '?' !in ext
    requires rest == [] || rest[0] == '?'
    requires ext == [] ==> '.' !in stem
    requires ext != [] ==> ext[0] == '.' && '.' !in ext[1..]
    ensures ContentTypeFromFilename(table, dir + stem + ext + rest)
              == if ext in table && table[ext] != "" then table[ext] else DefaultMediaType
    ensures ext == [] ==> ContentTypeFromFilename(table, dir + stem + ext + rest) == DefaultMediaType
  {
    assert dir + stem + ext + rest == dir + (stem + ext) + rest;
    assert forall c :: c in stem + ext ==> c in stem || c in ext;
    FileNameOf(dir, stem + ext, rest);
    ExtOf(stem, ext);
  }

  /** The file name of `dir + file + rest` is `file`, for a slash-free `file` without `?` and a `?` remnant `rest`. */
  lemma FileNameOf(dir: string, file: string, rest: string)
    requires dir == [] || dir[|dir| - 1] == '/'
    requires '/' !in file && '/' !in rest && '?' !in file
    requires rest == [] || rest[0] == '?'
    ensures FileName(dir + file + rest) == file
  {
    assert dir + file + rest == dir + (file + rest);
    assert forall c :: c in file + rest ==> c in file || c in rest;
    SplitPathOf(dir, file + rest);
    BeforeFirstOf(file, rest, '?');
  }

  /** With no dot in the last path element (before any `?`) the default is used. */
  lemma NoExtensionDefault(table: MimeTable, urlPath: string)
    requires '.' !in FileName(urlPath)
    ensures ContentTypeFromFilename(table, urlPath) == DefaultMediaType
  {
  }

  /** Only the last path element, up to its first `?`, decides the media type. */
  lemma OnlyFileNameMatters(table: MimeTable, p: string, q: string)
    requires FileName(p) == FileName(q)
    ensures ContentTypeFromFilename(table, p) == ContentTypeFromFilename(table, q)
  {
  }
}
