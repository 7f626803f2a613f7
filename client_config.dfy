/**
  Where the client sends requests and finds product images
  (client/src/utils/config.js). The build-time `VITE_BACKEND_URL` and the
  page's `window.__BACKEND_URL__` are parameters; "" stands for a value that
  is not set.
 */
module ClientConfig {
  import opened Js

  /** `s.endsWith(suffix)` */
  predicate EndsWith(s: string, suffix: string)
  {
    |suffix| <= |s| && s[|s| - |suffix|..] == suffix
  }

  /** getBackendUrl: the build-time URL, else the page's, without one trailing "/". */
  function BackendUrl(viteUrl: string, windowUrl: string): (r: string)
    ensures var base := if viteUrl != "" then viteUrl else windowUrl;
            if EndsWith(base, "/") then r + "/" == base else r == base
  {
    var base := if viteUrl != "" then viteUrl else windowUrl;
    if EndsWith(base, "/") then base[..|base| - 1] else base
  }

  /** Only one trailing "/" goes: "https://api.example//" keeps one. */
  lemma OneSlashStripped(host: string)
    requires host != ""
    ensures BackendUrl(host + "//", "") == host + "/"
    ensures BackendUrl("", host + "/") == host
  {
    assert (host + "//")[..|host + "//"| - 1] == host + "/";
    assert (host + "/")[..|host + "/"| - 1] == host;
  }

  /** `s.replace(/^\/+/, '')`: every leading "/" removed. */
  function StripLeadingSlashes(s: string): (r: string)
    ensures |r| <= |s| && r == s[|s| - |r|..]
    ensures r == [] || r[0] != '/'
    ensures forall i :: 0 <= i < |s| - |r| ==> s[i] == '/'
  {
    if s != [] && s[0] == '/' then StripLeadingSlashes(s[1..]) else s
  }

  /** `s.replace(/^p/, '')` for a literal prefix `p`. */
  function StripPrefix(s: string, p: string): (r: string)
    ensures StartsWith(s, p) ==> p + r == s
    ensures !StartsWith(s, p) ==> r == s
  {
    if StartsWith(s, p) then s[|p|..] else s
  }

  /** The cleaned file path: leading slashes, then "uploads/", then
      "images/", then "uploads/images/" removed, each at most once. */
  function CleanPath(path: string): string
  {
    StripPrefix(StripPrefix(StripPrefix(StripLeadingSlashes(path), "uploads/"), "images/"), "uploads/images/")
  }

  const ImagesRoute: string := "/uploads/images/"

  /** getImageUrl for a path (`None` when it is undefined) against the
      backend URL of the moment. */
  function ImageUrl(path: Option<string>, backend: string): (r: string)
    ensures path.None? || path.value == "" ==> r == ""
    ensures path.Some? && StartsWith(path.value, "http") ==> r == path.value
    ensures path.Some? && path.value != "" && !StartsWith(path.value, "http") ==>
              r == backend + ImagesRoute + CleanPath(path.value)
  {
    if path.None? || path.value == "" then ""
    else if StartsWith(path.value, "http") then path.value
    else backend + ImagesRoute + CleanPath(path.value)
  }

  /** A file name with no "/" and not starting with "http" is served from the
      same URL however it was stored: bare, with a leading "/", under
      "uploads/", under "images/" or under "uploads/images/". */
  lemma StoredFormsAgree(f: string, backend: string)
    requires f != "" && (forall i :: 0 <= i < |f| ==> f[i] != '/') && !StartsWith(f, "http")
    ensures ImageUrl(Some(f), backend) == backend + ImagesRoute + f
    ensures ImageUrl(Some("/" + f), backend) == backend + ImagesRoute + f
    ensures ImageUrl(Some("uploads/" + f), backend) == backend + ImagesRoute + f
    ensures ImageUrl(Some("images/" + f), backend) == backend + ImagesRoute + f
    ensures ImageUrl(Some("uploads/images/" + f), backend) == backend + ImagesRoute + f
  {
    NotPrefixed(f);
    assert CleanPath(f) == f;
    SlashCleaned(f);
    ServedAs("/" + f, backend, f);
    UploadsCleaned(f);
    ServedAs("uploads/" + f, backend, f);
    ImagesCleaned(f);
    ServedAs("images/" + f, backend, f);
    UploadsImagesCleaned(f);
    ServedAs("uploads/images/" + f, backend, f);
  }

  /** A path that does not start with "h" is served from the images route
      under its cleaned form. */
  lemma ServedAs(p: string, backend: string, clean: string)
    requires p != [] && p[0] != 'h' && CleanPath(p) == clean
    ensures ImageUrl(Some(p), backend) == backend + ImagesRoute + clean
  {
    assert !StartsWith(p, "http") by {
      assert |p| >= 4 ==> p[..4][0] == p[0] && "http"[0] == 'h';
    }
    assert ImageUrl(Some(p), backend) == backend + ImagesRoute + CleanPath(p);
  }

  /** A literal prefix followed by the rest starts with the prefix and
      leaves the rest once stripped. */
  lemma PrefixThen(prefix: string, rest: string)
    ensures StartsWith(prefix + rest, prefix) && StripPrefix(prefix + rest, prefix) == rest
  {
    assert (prefix + rest)[..|prefix|] == prefix && (prefix + rest)[|prefix|..] == rest;
  }

  lemma SlashCleaned(f: string)
    requires f != [] && f[0] != '/' && CleanPath(f) == f
    ensures CleanPath("/" + f) == f
  {
    assert ("/" + f)[1..] == f;
  }

  lemma UploadsCleaned(f: string)
    requires !StartsWith(f, "images/") && !StartsWith(f, "uploads/images/")
    ensures CleanPath("uploads/" + f) == f
  {
    var p := "uploads/" + f;
    assert p[0] == 'u';
    assert StripLeadingSlashes(p) == p;
    PrefixThen("uploads/", f);
  }

  lemma ImagesCleaned(f: string)
    requires !StartsWith(f, "uploads/images/")
    ensures CleanPath("images/" + f) == f
  {
    var p := "images/" + f;
    assert p[0] == 'i';
    assert StripLeadingSlashes(p) == p;
    assert |p| >= 8 ==> p[..8][0] == 'i';
    PrefixThen("images/", f);
  }

  lemma UploadsImagesCleaned(f: string)
    requires !StartsWith(f, "uploads/images/")
    ensures CleanPath("uploads/images/" + f) == f
  {
    var p := "uploads/images/" + f;
    assert p[0] == 'u';
    assert StripLeadingSlashes(p) == p;
    assert p == "uploads/" + ("images/" + f);
    PrefixThen("uploads/", "images/" + f);
    PrefixThen("images/", f);
  }

  /** A name with no "/" among its first eight characters carries none of
      the three prefixes. */
  lemma NotPrefixed(f: string)
    requires forall i :: 0 <= i < |f| && i < 8 ==> f[i] != '/'
    ensures f == [] || f[0] != '/'
    ensures !StartsWith(f, "uploads/") && !StartsWith(f, "images/") && !StartsWith(f, "uploads/images/")
  {
    assert |f| >= 8 ==> f[..8][7] != "uploads/"[7];
    assert |f| >= 7 ==> f[..7][6] != "images/"[6];
    assert |f| >= 15 ==> f[..15][7] != "uploads/images/"[7];
  }

  /** With a backend URL that starts with "http", a returned image URL is
      returned unchanged when looked up again. */
  lemma ImageUrlIdempotent(path: Option<string>, backend: string)
    requires StartsWith(backend, "http")
    ensures ImageUrl(Some(ImageUrl(path, backend)), backend) == ImageUrl(path, backend)
  {
    var r := ImageUrl(path, backend);
    if r != "" && !(path.Some? && StartsWith(path.value, "http")) {
      assert r[..4] == backend[..4];
    }
  }
}
