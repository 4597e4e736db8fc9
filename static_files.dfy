/**
 * The static asset bundles (src/static_file.rs): each bundle concatenates a
 * list of files, is served under a path carrying the hash of its content,
 * and is looked up by name. Reading a file and hashing are parameters:
 * `read` gives a file's text or `None` when it cannot be read, `hexDigest`
 * the lower-case hexadecimal MD5 digest of a text.
 */
module StaticFiles {
  import opened Wrappers
  import opened Sequences
  import opened AppErrors

  datatype Bundle = Bundle(name: string, mimeType: string, path: string, content: string)

  /** A successful file response: its headers and its body. */
  datatype FileResponse = FileResponse(headers: seq<(string, string)>, body: string)

  /** How long browsers may cache a bundle, in seconds (one week). */
  const CACHE_MAX_AGE: string := "max-age=604800"

  /** The text of `files` as a bundle holds it: each readable file followed by a newline, in order. */
  function Concat(files: seq<string>, read: string -> Option<string>): string
  {
    if files == [] then ""
    else
      var last := files[|files| - 1];
      Concat(files[..|files| - 1], read) + (if read(last).Some? then read(last).value + "\n" else "")
  }

  /** Bundling two lists one after the other is bundling their concatenation. */
  lemma {:induction false} ConcatAppend(a: seq<string>, b: seq<string>, read: string -> Option<string>)
    ensures Concat(a + b, read) == Concat(a, read) + Concat(b, read)
    decreases |b|
  {
    if b == [] {
      assert a + b == a;
    } else {
      var last := b[|b| - 1];
      assert (a + b)[..|a + b| - 1] == a + b[..|b| - 1];
      ConcatAppend(a, b[..|b| - 1], read);
    }
  }

  /** A bundle is empty exactly when none of its files can be read. */
  lemma {:induction false} ConcatEmpty(files: seq<string>, read: string -> Option<string>)
    ensures Concat(files, read) == "" <==> forall i :: 0 <= i < |files| ==> read(files[i]).None?
  {
    if files != [] {
      var init := files[..|files| - 1];
      ConcatEmpty(init, read);
      assert forall i :: 0 <= i < |init| ==> init[i] == files[i];
    }
  }

  /** A single readable file is bundled as its text and a newline. */
  lemma ConcatOne(file: string, text: string, read: string -> Option<string>)
    requires read(file) == Some(text)
    ensures Concat([file], read) == text + "\n"
  {
    assert [file][..0] == [];
  }

  /** Where a bundle is served: `/static/`, the content's digest, a dot and the bundle's name. */
  function BundlePath(digest: string, name: string): (p: string)
    ensures |p| == 9 + |digest| + |name| && p[8 + |digest|] == '.'
    ensures p[..8] == "/static/" && p[8..8 + |digest|] == digest && p[|p| - |name|..] == name
  {
    "/static/" + digest + "." + name
  }

  /** The bundle `create_bundle` builds from `files`. */
  function BundleOf(name: string, mimeType: string, files: seq<string>,
                    read: string -> Option<string>, hexDigest: string -> string): (b: Bundle)
    ensures b.name == name && b.mimeType == mimeType
    ensures b.content == Concat(files, read)
    ensures b.path == BundlePath(hexDigest(Concat(files, read)), name)
  {
    var content := Concat(files, read);
    Bundle(name, mimeType, BundlePath(hexDigest(content), name), content)
  }

  /** `create_bundle`: the loop appending each readable file, then the path from the digest. */
  method CreateBundle(name: string, mimeType: string, files: seq<string>,
                      read: string -> Option<string>, hexDigest: string -> string) returns (b: Bundle)
    ensures b == BundleOf(name, mimeType, files, read, hexDigest)
  {
    var content := "";
    var i := 0;
    while i < |files|
      invariant 0 <= i <= |files|
      invariant content == Concat(files[..i], read)
    {
      var fileContent := read(files[i]);
      if fileContent.Some? {
        content := content + fileContent.value;
        content := content + "\n";
      }
      assert files[..i + 1][..i] == files[..i];
      i := i + 1;
    }
    assert files[..i] == files;
    var path := "/static/" + hexDigest(content);
    path := path + ".";
    path := path + name;
    b := Bundle(name, mimeType, path, content);
  }

  /** The four bundles, in registration order: name, MIME type and source files. */
  const BUNDLE_SOURCES: seq<(string, string, seq<string>)> := [
    ("bundle.css", "text/css", ["./src/static/output.css"]),
    ("app.js", "text/javascript",
      ["./src/static/reconnecting-websocket.min.js", "./src/static/custom.js", "./src/static/alpine_3_14_3.min.js"]),
    ("tailwind_4_dev.js", "text/javascript", ["./src/static/tailwind_4_dev.js"]),
    ("qrcode.js", "text/javascript", ["./src/static/qrcode.min.js"])
  ]

  /** The bundles `init` registers. */
  function InitBundles(read: string -> Option<string>, hexDigest: string -> string): (bs: seq<Bundle>)
    ensures |bs| == |BUNDLE_SOURCES|
    ensures forall k :: 0 <= k < |bs| ==>
      bs[k] == BundleOf(BUNDLE_SOURCES[k].0, BUNDLE_SOURCES[k].1, BUNDLE_SOURCES[k].2, read, hexDigest)
  {
    seq(|BUNDLE_SOURCES|, k requires 0 <= k < |BUNDLE_SOURCES| =>
      BundleOf(BUNDLE_SOURCES[k].0, BUNDLE_SOURCES[k].1, BUNDLE_SOURCES[k].2, read, hexDigest))
  }

  /** `init`: builds the four bundles and registers them in order. */
  method Init(read: string -> Option<string>, hexDigest: string -> string) returns (bundles: seq<Bundle>)
    ensures bundles == InitBundles(read, hexDigest)
  {
    bundles := [];
    var b := CreateBundle("bundle.css", "text/css", ["./src/static/output.css"], read, hexDigest);
    bundles := bundles + [b];
    b := CreateBundle("app.js", "text/javascript",
      ["./src/static/reconnecting-websocket.min.js", "./src/static/custom.js", "./src/static/alpine_3_14_3.min.js"],
      read, hexDigest);
    bundles := bundles + [b];
    b := CreateBundle("tailwind_4_dev.js", "text/javascript", ["./src/static/tailwind_4_dev.js"], read, hexDigest);
    bundles := bundles + [b];
    b := CreateBundle("qrcode.js", "text/javascript", ["./src/static/qrcode.min.js"], read, hexDigest);
    bundles := bundles + [b];
  }

  /** The registered bundles carry the four names and MIME types, in this order. */
  lemma InitNames(read: string -> Option<string>, hexDigest: string -> string)
    ensures |InitBundles(read, hexDigest)| == 4
    ensures InitBundles(read, hexDigest)[0].name == "bundle.css" && InitBundles(read, hexDigest)[0].mimeType == "text/css"
    ensures InitBundles(read, hexDigest)[1].name == "app.js" && InitBundles(read, hexDigest)[1].mimeType == "text/javascript"
    ensures InitBundles(read, hexDigest)[2].name == "tailwind_4_dev.js" && InitBundles(read, hexDigest)[2].mimeType == "text/javascript"
    ensures InitBundles(read, hexDigest)[3].name == "qrcode.js" && InitBundles(read, hexDigest)[3].mimeType == "text/javascript"
  {
  }

  /** Whether a bundle is the one called `name`. */
  function Named(name: string): Bundle -> bool
  {
    (b: Bundle) => b.name == name
  }

  /** The path `get_path` returns: that of the first bundle called `name`; `None` where it panics. */
  function PathOf(bundles: seq<Bundle>, name: string): (r: Option<string>)
    ensures r.None? <==> forall k :: 0 <= k < |bundles| ==> bundles[k].name != name
    ensures r.Some? ==> exists k :: (0 <= k < |bundles| && bundles[k].name == name && r.value == bundles[k].path
      && forall j :: 0 <= j < k ==> bundles[j].name != name)
  {
    match Position(bundles, Named(name))
    case None => None
    case Some(k) => Some(bundles[k].path)
  }

  /** `get_path`: the loop over the bundles with an early return. */
  method GetPath(bundles: seq<Bundle>, name: string) returns (r: Option<string>)
    ensures r == PathOf(bundles, name)
  {
    var k := FindPosition(bundles, Named(name));
    if k.Some? {
      return Some(bundles[k.value].path);
    }
    return None;
  }

  /** Each registered bundle's path is found under its own name. */
  lemma InitPathsFound(read: string -> Option<string>, hexDigest: string -> string, k: nat)
    requires k < 4
    ensures PathOf(InitBundles(read, hexDigest), BUNDLE_SOURCES[k].0) == Some(InitBundles(read, hexDigest)[k].path)
  {
    var bs := InitBundles(read, hexDigest);
    InitNames(read, hexDigest);
    PositionIs(bs, Named(BUNDLE_SOURCES[k].0), k);
  }

  /** `get_path` finds a path exactly for the four registered names. */
  lemma RegisteredNames(read: string -> Option<string>, hexDigest: string -> string, name: string)
    ensures PathOf(InitBundles(read, hexDigest), name).Some? <==>
      name in ["bundle.css", "app.js", "tailwind_4_dev.js", "qrcode.js"]
  {
    var bs := InitBundles(read, hexDigest);
    InitNames(read, hexDigest);
    var names := ["bundle.css", "app.js", "tailwind_4_dev.js", "qrcode.js"];
    assert forall k :: 0 <= k < 4 ==> bs[k].name == names[k];
    if name in names {
      var k :| 0 <= k < 4 && names[k] == name;
      assert bs[k].name == name;
    }
  }

  /** Names the pages ask `get_path` for that `init` never registers; asking panics. */
  lemma UnregisteredPaths(read: string -> Option<string>, hexDigest: string -> string)
    ensures PathOf(InitBundles(read, hexDigest), "alpine.js").None?
    ensures PathOf(InitBundles(read, hexDigest), "cookies.js").None?
  {
    RegisteredNames(read, hexDigest, "alpine.js");
    RegisteredNames(read, hexDigest, "cookies.js");
  }

  /** Whether `t` occurs in `s` at position 0. */
  predicate StartsWith(s: string, t: string)
  {
    |t| <= |s| && s[..|t|] == t
  }

  /** Whether `t` occurs in `s` starting at index `i`. */
  predicate OccursAt(s: string, t: string, i: int)
  {
    0 <= i <= |s| - |t| && s[i..i + |t|] == t
  }

  /** `str::contains`: whether `t` occurs somewhere in `s`. */
  function Contains(s: string, t: string): (r: bool)
    ensures r <==> exists i :: OccursAt(s, t, i)
    decreases |s|
  {
    if StartsWith(s, t) then
      assert OccursAt(s, t, 0);
      true
    else if |s| == 0 then false
    else
      var r := Contains(s[1..], t);
      assert forall i :: OccursAt(s[1..], t, i) ==> OccursAt(s, t, i + 1);
      assert forall i :: OccursAt(s, t, i) ==> i == 0 || OccursAt(s[1..], t, i - 1);
      r
  }

  /** Whether the requested file name mentions a bundle's name. */
  function Mentions(fileName: string): Bundle -> bool
  {
    (b: Bundle) => Contains(fileName, b.name)
  }

  /** The response of `http_get_static_file` for `fileName`. */
  function Served(bundles: seq<Bundle>, fileName: string): (r: Result<FileResponse, AppError>)
    ensures r.Err? <==> forall k :: 0 <= k < |bundles| ==> !Contains(fileName, bundles[k].name)
    ensures r.Err? ==> r.error == NotFound
  {
    match Position(bundles, Mentions(fileName))
    case None => Err(NotFound)
    case Some(k) =>
      Ok(FileResponse([("content-type", bundles[k].mimeType), ("cache-control", CACHE_MAX_AGE)], bundles[k].content))
  }

  /** A served file is the first bundle whose name it mentions, with its MIME type and a week of caching. */
  lemma ServedIsFirstMentioned(bundles: seq<Bundle>, fileName: string)
    requires Served(bundles, fileName).Ok?
    ensures exists k :: (0 <= k < |bundles| && Contains(fileName, bundles[k].name)
      && (forall j :: 0 <= j < k ==> !Contains(fileName, bundles[j].name))
      && Served(bundles, fileName).value
         == FileResponse([("content-type", bundles[k].mimeType), ("cache-control", CACHE_MAX_AGE)], bundles[k].content))
  {
    var k := Position(bundles, Mentions(fileName)).value;
    assert Contains(fileName, bundles[k].name);
  }

  /** `http_get_static_file`: the loop over the bundles with an early return. */
  method ServeStaticFile(bundles: seq<Bundle>, fileName: string) returns (r: Result<FileResponse, AppError>)
    ensures r == Served(bundles, fileName)
  {
    var k := FindPosition(bundles, Mentions(fileName));
    if k.Some? {
      var bundle := bundles[k.value];
      var headers := [("content-type", bundle.mimeType), ("cache-control", CACHE_MAX_AGE)];
      return Ok(FileResponse(headers, bundle.content));
    }
    return Err(NotFound);
  }
}
