/**
 * `App.resolveUri` of server/src/app.ts: turns an editor uri into a path
 * relative to the workspace root `path`.
 */
module App {

  const FileScheme: string := "file://"

  predicate IsPrefix(p: string, s: string) {
    |p| <= |s| && s[..|p|] == p
  }

  /** Drops a leading `file://`. */
  function DropScheme(uri: string): (r: string)
    ensures IsPrefix(FileScheme, uri) ==> uri == FileScheme + r
    ensures !IsPrefix(FileScheme, uri) ==> r == uri
  {
    if IsPrefix(FileScheme, uri) then uri[|FileScheme|..] else uri
  }

  /**
   * When `filename` starts with the root path, drops that path and at most one
   * following `/`; otherwise leaves it alone.
   */
  function DropRoot(path: string, filename: string): (r: string)
    ensures |r| <= |filename| && r == filename[|filename| - |r|..]
  {
    if IsPrefix(path, filename) then
      var rest := filename[|path|..];
      if |rest| > 0 && rest[0] == '/' then rest[1..] else rest
    else filename
  }

  /**
   * `resolveUri`: the uri without its scheme, relative to the root path.  The
   * result is always a suffix of the uri.
   */
  function ResolveUri(path: string, uri: string): (r: string)
    ensures |r| <= |uri| && r == uri[|uri| - |r|..]
  {
    DropRoot(path, DropScheme(uri))
  }

  /** A uri with neither the scheme nor the root path in front comes back unchanged. */
  lemma PlainUriUnchanged(path: string, uri: string)
    requires !IsPrefix(FileScheme, uri) && !IsPrefix(path, uri)
    ensures ResolveUri(path, uri) == uri
  {
  }

  /** Only the scheme is dropped when the rest does not start with the root path. */
  lemma SchemeOnlyDropped(path: string, rest: string)
    requires !IsPrefix(path, rest)
    ensures ResolveUri(path, FileScheme + rest) == rest
  {
    assert (FileScheme + rest)[..|FileScheme|] == FileScheme;
  }

  /**
   * A name under the root path loses the root path and one separating `/`, and
   * only one: `path + "//x"` gives `"/x"`.  Without the separator the name must
   * not start with `/`, which would be taken for one.
   */
  lemma DropRootJoined(path: string, relative: string, slash: bool)
    requires !slash ==> (relative == [] || relative[0] != '/')
    ensures DropRoot(path, path + (if slash then "/" else "") + relative) == relative
  {
    var sep: string := if slash then "/" else "";
    var filename := path + sep + relative;
    assert filename[..|path|] == path;
    assert filename[|path|..] == sep + relative;
    if slash {
      assert (sep + relative)[1..] == relative;
    }
  }

  /** The uri of a name under the root path, with or without the scheme and the separating `/`. */
  function JoinedUri(path: string, relative: string, scheme: bool, slash: bool): string {
    (if scheme then FileScheme else "") + path + (if slash then "/" else "") + relative
  }

  /**
   * Joining a relative name to the root path, with or without the scheme and
   * the separating `/`, resolves back to that relative name; without the
   * separator the name must not itself start with `/`.
   */
  lemma ResolveJoined(path: string, relative: string, scheme: bool, slash: bool)
    requires !slash ==> (relative == [] || relative[0] != '/')
    requires !scheme ==> !IsPrefix(FileScheme, JoinedUri(path, relative, false, slash))
    ensures ResolveUri(path, JoinedUri(path, relative, scheme, slash)) == relative
  {
    var filename := JoinedUri(path, relative, false, slash);
    DropRootJoined(path, relative, slash);
    assert filename == path + (if slash then "/" else "") + relative;
    if scheme {
      assert JoinedUri(path, relative, scheme, slash) == FileScheme + filename;
      SchemeDropped(filename);
    } else {
      assert JoinedUri(path, relative, scheme, slash) == filename;
    }
  }

  /** `file://` in front of a name is dropped. */
  lemma SchemeDropped(filename: string)
    ensures DropScheme(FileScheme + filename) == filename
  {
    assert (FileScheme + filename)[..|FileScheme|] == FileScheme;
  }
}
