/**
 * URLs and file locations, as far as the cache needs them.
 *
 * A URL is kept as Foundation has already split it: everything before the
 * path (scheme, host, port) and the path itself, as its percent-encoded text. The one operation the cache
 * uses is `lastPathComponent`, modelled here on the path string: trailing
 * slashes are ignored, an empty path gives "", a path made only of slashes
 * gives "/", and otherwise the result is the text after the last '/'.
 */
module UrlPaths {

  datatype Url = Url(origin: string, path: string)

  /** A location in the file system, as its list of components. */
  type Path = seq<string>

  /** The path with every trailing '/' removed. */
  function TrimTrailingSlashes(s: string): (r: string)
    ensures r <= s
    ensures r == [] || r[|r| - 1] != '/'
    ensures forall i :: |r| <= i < |s| ==> s[i] == '/'
  {
    if |s| > 0 && s[|s| - 1] == '/' then TrimTrailingSlashes(s[..|s| - 1]) else s
  }

  /** The longest suffix of `s` that holds no '/'. */
  function AfterLastSlash(s: string): (r: string)
    ensures '/' !in r
    ensures |r| <= |s| && s[|s| - |r|..] == r
    ensures |r| < |s| ==> s[|s| - |r| - 1] == '/'
  {
    if |s| == 0 || s[|s| - 1] == '/' then [] else AfterLastSlash(s[..|s| - 1]) + [s[|s| - 1]]
  }

  /**
   * Foundation's `URL.lastPathComponent`: the last segment of the path once
   * trailing slashes are dropped.
   */
  function LastPathComponent(u: Url): (r: string)
    ensures u.path == [] ==> r == []
    ensures u.path != [] && TrimTrailingSlashes(u.path) == [] ==> r == "/"
    ensures TrimTrailingSlashes(u.path) != [] ==> r != [] && '/' !in r
  {
    var trimmed := TrimTrailingSlashes(u.path);
    if trimmed == [] then (if u.path == [] then [] else "/")
    else AfterLastSlash(trimmed)
  }

  /**
   * Which segment `LastPathComponent` picks: once trailing slashes are
   * dropped, the component ends the path and is preceded by a '/' unless it
   * is the whole path. With the '/'-free result above, this fixes it.
   */
  lemma LastPathComponentEndsPath(u: Url)
    ensures var r, t := LastPathComponent(u), TrimTrailingSlashes(u.path);
      t != [] ==> |r| <= |t| && t[|t| - |r|..] == r && (|r| < |t| ==> t[|t| - |r| - 1] == '/')
  {
  }

  /** A path `dir/name` whose last segment holds no '/' has that segment as its last component. */
  lemma {:induction false} AfterLastSlashOfJoin(dir: string, name: string)
    requires '/' !in name
    ensures AfterLastSlash(dir + "/" + name) == name
  {
    var s := dir + "/" + name;
    assert s[|s| - |name|..] == name;
    assert s[|s| - |name| - 1] == '/';
  }

  /** The file name of a URL whose path ends in `/name` is `name`. */
  lemma FileNameOfJoin(origin: string, dir: string, name: string)
    requires name != [] && '/' !in name
    ensures LastPathComponent(Url(origin, dir + "/" + name)) == name
  {
    var s := dir + "/" + name;
    assert s[|s| - 1] == name[|name| - 1] != '/';
    assert TrimTrailingSlashes(s) == s;
    AfterLastSlashOfJoin(dir, name);
  }

  /** A trailing slash does not change the last path component: "/a/b/" and "/a/b" both give "b". */
  lemma TrailingSlashKeepsFileName(origin: string, path: string)
    requires TrimTrailingSlashes(path) != []
    ensures LastPathComponent(Url(origin, path + "/")) == LastPathComponent(Url(origin, path))
  {
    var s := path + "/";
    assert s[..|s| - 1] == path;
  }

  /**
   * Two different URLs can share a last path component: the hazard behind
   * the cache's one-file-per-name layout.
   */
  lemma DistinctUrlsShareFileName()
    ensures var a := Url("https://example.com", "/v1/x.mp3");
            var b := Url("https://example.com", "/v2/x.mp3");
            a != b && LastPathComponent(a) == LastPathComponent(b) == "x.mp3"
  {
    FileNameOfJoin("https://example.com", "/v1", "x.mp3");
    FileNameOfJoin("https://example.com", "/v2", "x.mp3");
    assert "/v1" + "/" + "x.mp3" == "/v1/x.mp3";
    assert "/v2" + "/" + "x.mp3" == "/v2/x.mp3";
    assert "/v1/x.mp3"[2] != "/v2/x.mp3"[2];
  }
}
