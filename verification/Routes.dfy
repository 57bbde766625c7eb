/** Registry routes: what the gateway parses, and what the token service makes of the same path. */
module Routes {
  import opened Collections
  import opened Strings
  import opened DomainName

  const PREFIX := "/v2/"
  const DIGEST_LENGTH := 71

  datatype PathInfo = PathInfo(
    host: string,
    image: string,
    tagsList: bool,
    manifests: string,
    isDigestManifests: bool,
    blobs: string
  )

  /** A first segment is taken for a host only if it is a dotted domain name. */
  predicate IsHost(s: string) {
    Accepts(s) && '.' in s
  }

  /** Printing fails when no kind was recognised. */
  function Path(p: PathInfo): Option<string> {
    if p.tagsList then Some(PREFIX + p.image + "/tags/list")
    else if p.manifests != "" then Some(PREFIX + p.image + "/manifests/" + p.manifests)
    else if p.blobs != "" then Some(PREFIX + p.image + "/blobs/" + p.blobs)
    else None
  }

  /** The kind of request, from the last two segments; None for a blob name of the wrong length. */
  function ParseKind(host: string, image: string, kind: string, name: string): Option<PathInfo> {
    var info := PathInfo(host, image, false, "", false, "");
    if kind == "tags" then Some(info.(tagsList := name == "list"))
    else if kind == "manifests" then Some(info.(manifests := name, isDigestManifests := HasPrefix(name, DIGEST_PREFIX)))
    else if kind == "blobs" then if |name| == DIGEST_LENGTH then Some(info.(blobs := name)) else None
    else Some(info)
  }

  function ParseOriginPath(path: string): Option<PathInfo> {
    var p := TrimPrefix(path, PREFIX);
    var i := IndexOf(p, '/');
    if i <= 0 then None
    else
      var host := p[..i];
      var tails := Split(p[i + 1..], '/');
      var n := |tails| - 2;
      if !IsHost(host) then
        if |tails| < 2 then None
        else
          var image := Join(tails[..n], '/');
          ParseKind("", if image == "" then host else host + "/" + image, tails[n], tails[n + 1])
      else
        if |tails| < 3 then None
        else
          var image := Join(tails[..n], '/');
          if image == "" then None else ParseKind(host, image, tails[n], tails[n + 1])
  }

  /** The token service keeps everything before the last two segments. */
  function GetImage(path: string): Option<string> {
    var parts := Split(TrimPrefix(path, PREFIX), '/');
    if |parts| < 3 then None else Some(Join(parts[..|parts| - 2], '/'))
  }

  /** Cutting at the first separator: strings.SplitN with a limit of 2. */
  function Cut(s: string, c: char): Option<(string, string)> {
    var i := IndexOf(s, c);
    if i < 0 then None else Some((s[..i], s[i + 1..]))
  }

  function GetHostAndImage(repo: string, allowPrefix: bool, source: string): Option<(string, string)> {
    var cut := Cut(repo, '/');
    if cut.Some? && IsHost(cut.value.0) then
      if allowPrefix then cut else None
    else if source != "" then Some((source, repo))
    else None
  }

  // ---- Segments of a route.

  ghost function Segments(path: string): seq<string> {
    Split(TrimPrefix(path, PREFIX), '/')
  }

  /** Four segments `name//kind/reference` whose first is no host: the empty one is lost. */
  ghost predicate Squeezed(path: string) {
    var s := Segments(path);
    |s| == 4 && s[0] != "" && s[1] == "" && !IsHost(s[0])
  }

  lemma SplitFirst(p: string)
    ensures
      var i := IndexOf(p, '/');
      if i < 0 then Split(p, '/') == [p] else Split(p, '/') == [p[..i]] + Split(p[i + 1..], '/')
  {
    hide Split;
    var i := IndexOf(p, '/');
    if i < 0 {
      SplitSingle(p, '/');
    } else {
      assert p == p[..i] + ['/'] + p[i + 1..];
      SplitConcat(p[..i], p[i + 1..], '/');
      SplitSingle(p[..i], '/');
    }
  }

  /** The parser restated on segments: one shape with a host, one without, and one that loses an empty segment. */
  ghost function ParseSegments(s: seq<string>): Option<PathInfo>
    requires |s| >= 1
  {
    var n := |s| - 2;
    if n < 1 || s[0] == "" then None
    else if !IsHost(s[0]) then
      ParseKind("", if n == 2 && s[1] == "" then s[0] else Join(s[..n], '/'), s[n], s[n + 1])
    else if n == 1 || (n == 2 && s[1] == "") then None
    else ParseKind(s[0], Join(s[1..n], '/'), s[n], s[n + 1])
  }

  lemma {:induction false} JoinEmpty(parts: seq<string>)
    requires Join(parts, '/') == ""
    ensures parts == [] || parts == [""]
  {
  }

  lemma ParseIsSegments(path: string)
    ensures ParseOriginPath(path) == ParseSegments(Segments(path))
  {
    hide Split, Join, ParseKind, IsHost;
    var p := TrimPrefix(path, PREFIX);
    var s := Segments(path);
    SplitFirst(p);
    var i := IndexOf(p, '/');
    if i > 0 && |s| >= 3 {
      var tails := Split(p[i + 1..], '/');
      var n := |s| - 2;
      assert s[1..n] == tails[..n - 1];
      ImageParts(s[0], tails[..n - 1]);
      assert [s[0]] + tails[..n - 1] == s[..n];
    }
  }

  lemma ImageParts(first: string, rest: seq<string>)
    ensures Join(rest, '/') == "" <==> rest == [] || rest == [""]
    ensures rest == [] ==> Join([first] + rest, '/') == first
    ensures rest != [] ==> Join([first] + rest, '/') == first + "/" + Join(rest, '/')
  {
    if Join(rest, '/') == "" { JoinEmpty(rest); }
    if rest != [] { JoinConcat([first], rest, '/'); }
  }

  // ---- Paths written out, and what is read from them.

  /** A name the parser takes apart: a dotted domain name before an image, or an image whose first
      segment is none; of two segments the second is not empty. */
  ghost predicate Named(host: string, image: string) {
    if host != "" then DomainName.DomainName(host) && '.' in host && image != ""
    else exists k | 0 < k <= |image| ::
      && '/' !in image[..k] && !(DomainName.DomainName(image[..k]) && '.' in image[..k])
      && (k == |image| || (image[k] == '/' && k + 1 < |image|))
  }

  /** The path of a request for an image, with its host if there is one. */
  function Request(host: string, image: string, kind: string, name: string): string {
    "/v2/" + (if host == "" then image else host + "/" + image) + "/" + kind + "/" + name
  }

  lemma NamedSegments(host: string, image: string)
    requires Named(host, image)
    ensures
      var s := Split(if host == "" then image else host + "/" + image, '/');
      && s[0] != "" && (IsHost(s[0]) <==> host != "")
      && (host == "" ==> Join(s, '/') == image && !(|s| == 2 && s[1] == ""))
      && (host != "" ==> s == [host] + Split(image, '/') && Join(s[1..], '/') == image && s[1..] != [""])
  {
    hide Split, Join, DomainName.DomainName, Accepts;
    JoinSplit(image, '/');
    if host != "" {
      AcceptsGrammar(host);
      HostHasNoSeparators(host);
      SplitConcat(host, image, '/');
      SplitSingle(host, '/');
      JoinOne("");
    } else {
      var k :| 0 < k <= |image| && '/' !in image[..k] && !(DomainName.DomainName(image[..k]) && '.' in image[..k]) &&
        (k == |image| || (image[k] == '/' && k + 1 < |image|));
      AcceptsGrammar(image[..k]);
      SplitSingle(image[..k], '/');
      if k == |image| {
        assert image[..k] == image;
      } else {
        var rest := image[k + 1..];
        assert image == image[..k] + ['/'] + rest;
        SplitConcat(image[..k], rest, '/');
        JoinSplit(rest, '/');
        JoinOne("");
        assert Split(rest, '/') != [""];
        assert Split(image, '/')[1..] == Split(rest, '/');
      }
    }
  }

  lemma RequestSegments(host: string, image: string, kind: string, name: string)
    requires '/' !in kind && '/' !in name
    ensures
      Segments(Request(host, image, kind, name)) ==
      Split(if host == "" then image else host + "/" + image, '/') + [kind, name]
  {
    hide Split;
    var full := if host == "" then image else host + "/" + image;
    Regrouped(full, kind, name);
    SplitConcat(full, kind + ['/'] + name, '/');
    SplitConcat(kind, name, '/');
    SplitSingle(kind, '/');
    SplitSingle(name, '/');
  }

  lemma Regrouped(full: string, kind: string, name: string)
    ensures TrimPrefix("/v2/" + full + "/" + kind + "/" + name, PREFIX) == full + ['/'] + (kind + ['/'] + name)
  {
    var end := full + ['/'] + (kind + ['/'] + name);
    assert "/v2/" + full + "/" + kind + "/" + name == PREFIX + end;
    assert (PREFIX + end)[|PREFIX|..] == end;
  }

  /** A request for a named image is parsed by its kind. */
  lemma ParseRequest(host: string, image: string, kind: string, name: string)
    requires Named(host, image) && '/' !in kind && '/' !in name
    ensures ParseOriginPath(Request(host, image, kind, name)) == ParseKind(host, image, kind, name)
  {
    hide Split, Join, Named, IsHost, ParseKind, ParseOriginPath, Segments, Request;
    var path := Request(host, image, kind, name);
    var names := Split(if host == "" then image else host + "/" + image, '/');
    var s := Segments(path);
    ParseIsSegments(path);
    RequestSegments(host, image, kind, name);
    NamedSegments(host, image);
    var n := |s| - 2;
    assert s[..n] == names && s[1..n] == names[1..] && s[0] == names[0];
  }

  /** A blob is recognised exactly by a name of 71 characters, for a digest by 64 after its mark. */
  lemma BlobRoute(host: string, image: string, name: string)
    requires Named(host, image) && '/' !in name
    ensures
      var got := ParseOriginPath(Request(host, image, "blobs", name));
      got == if |name| == 71 then Some(PathInfo(host, image, false, "", false, name)) else None
    ensures forall h: string | name == "sha256:" + h ::
      ParseOriginPath(Request(host, image, "blobs", name)).Some? <==> |h| == 64
  {
    hide ParseOriginPath, Named, Request;
    ParseRequest(host, image, "blobs", name);
  }

  /** A manifest is asked for by digest exactly if its reference begins with the mark of one. */
  lemma ManifestRoute(host: string, image: string, name: string)
    requires Named(host, image) && '/' !in name
    ensures
      var got := ParseOriginPath(Request(host, image, "manifests", name));
      got == Some(PathInfo(host, image, false, name, |name| >= 7 && name[..7] == "sha256:", ""))
  {
    hide ParseOriginPath, Named, Request;
    ParseRequest(host, image, "manifests", name);
  }

  /** `tags/list` asks for the tags; any other request of that kind, or of another, has none. */
  lemma OtherRoutes(host: string, image: string, kind: string, name: string)
    requires Named(host, image) && '/' !in kind && '/' !in name && kind != "blobs" && kind != "manifests"
    ensures
      ParseOriginPath(Request(host, image, kind, name)) ==
      Some(PathInfo(host, image, kind == "tags" && name == "list", "", false, ""))
  {
    hide ParseOriginPath, Named, Request;
    ParseRequest(host, image, kind, name);
  }

  lemma NamedImage(first: string, rest: seq<string>)
    requires first != "" && '/' !in first && !IsHost(first) && rest != [""]
    ensures Named("", Join([first] + rest, '/'))
  {
    hide Join, DomainName.DomainName, Accepts;
    AcceptsGrammar(first);
    ImageParts(first, rest);
    var image := Join([first] + rest, '/');
    assert image[..|first|] == first;
  }

  /** The segments of a path with the prefix joined again, the last two as kind and reference. */
  lemma RejoinedSegments(path: string)
    requires HasPrefix(path, "/v2/") && |Segments(path)| >= 3
    ensures
      var s := Segments(path);
      var n := |s| - 2;
      && Separated(s, '/')
      && path == Request("", Join(s[..n], '/'), s[n], s[n + 1])
  {
    hide Split, Join, Separated;
    var p := TrimPrefix(path, PREFIX);
    var s := Segments(path);
    var n := |s| - 2;
    JoinSplit(p, '/');
    JoinLastTwo(s);
    var all := Join(s[..n], '/');
    Regrouped(all, s[n], s[n + 1]);
    assert path == PREFIX + p;
    assert PREFIX + (all + "/" + s[n] + "/" + s[n + 1]) == "/v2/" + all + "/" + s[n] + "/" + s[n + 1];
  }

  /** Nothing but requests for named images is recognised, save an image of one segment written with
      a slash too many. */
  lemma OnlyRequests(path: string)
    requires HasPrefix(path, "/v2/") && ParseOriginPath(path).Some?
    ensures
      var info := ParseOriginPath(path).value;
      && Named(info.host, info.image)
      && exists kind, name ::
        && '/' !in kind && '/' !in name
        && (path == Request(info.host, info.image, kind, name)
            || (info.host == "" && '/' !in info.image && path == Request("", info.image + "/", kind, name)))
  {
    hide Split, Join, IsHost, Accepts, ParseKind, ParseOriginPath, Named, Request, Segments;
    ParseIsSegments(path);
    var s := Segments(path);
    ParsedNames(s);
    RejoinedSegments(path);
    var n := |s| - 2;
    var info := ParseOriginPath(path).value;
    assert '/' !in s[0] && '/' !in s[n] && '/' !in s[n + 1];
    ImageParts(s[0], s[1..n]);
    assert [s[0]] + s[1..n] == s[..n];
    if IsHost(s[0]) {
      NamedHost(s[0], info.image, s[n], s[n + 1]);
      assert path == Request(info.host, info.image, s[n], s[n + 1]);
    } else if n == 2 && s[1] == "" {
      NamedImage(s[0], []);
      JoinOne(s[0]);
      assert [s[0]] + [] == [s[0]];
      assert s[1..n] == [""];
      assert Join(s[..n], '/') == s[0] + "/";
      assert path == Request("", info.image + "/", s[n], s[n + 1]);
    } else {
      NamedImage(s[0], s[1..n]);
      assert path == Request(info.host, info.image, s[n], s[n + 1]);
    }
  }

  lemma NamedHost(host: string, image: string, kind: string, name: string)
    requires IsHost(host) && image != ""
    ensures Named(host, image)
    ensures Request("", host + "/" + image, kind, name) == Request(host, image, kind, name)
  {
    AcceptsGrammar(host);
    HostHasNoSeparators(host);
  }

  /** The prefix may be missing. */
  lemma PrefixOptional(path: string)
    requires !HasPrefix(path, "/v2/")
    ensures ParseOriginPath(path) == ParseOriginPath("/v2/" + path)
  {
    hide ParseOriginPath;
    ParseIsSegments(path);
    ParseIsSegments("/v2/" + path);
    assert TrimPrefix("/v2/" + path, PREFIX) == path;
  }

  // ---- Round trips.

  /** Host and route printed again. */
  ghost function Reprint(info: PathInfo): Option<string> {
    match Path(info)
    case None => None
    case Some(q) => Some(if info.host == "" then q else PREFIX + info.host + "/" + q[|PREFIX|..])
  }

  lemma PrintedKind(host: string, image: string, kind: string, name: string)
    requires ParseKind(host, image, kind, name).Some?
    ensures
      var info := ParseKind(host, image, kind, name).value;
      info.host == host && info.image == image &&
      match Path(info)
      case None => true
      case Some(q) => q == PREFIX + (image + "/" + kind + "/" + name)
  {
    var info := ParseKind(host, image, kind, name).value;
    if info.tagsList {
      assert Path(info).value == PREFIX + (image + "/" + "tags" + "/" + "list");
    } else if info.manifests != "" {
      assert Path(info).value == PREFIX + (image + "/" + "manifests" + "/" + name);
    } else if info.blobs != "" {
      assert Path(info).value == PREFIX + (image + "/" + "blobs" + "/" + name);
    }
  }

  lemma ReprintedKind(host: string, image: string, kind: string, name: string)
    requires ParseKind(host, image, kind, name).Some? && Path(ParseKind(host, image, kind, name).value).Some?
    ensures
      var full := if host == "" then image else host + "/" + image;
      Reprint(ParseKind(host, image, kind, name).value) == Some(PREFIX + (full + ("/" + kind + "/" + name)))
  {
    hide ParseKind, Path;
    PrintedKind(host, image, kind, name);
    var end := "/" + kind + "/" + name;
    assert image + "/" + kind + "/" + name == image + end;
    assert (PREFIX + (image + end))[|PREFIX|..] == image + end;
    assert PREFIX + host + "/" + (image + end) == PREFIX + ((host + "/" + image) + end);
  }

  /** Re-printing gives the path back, except that a squeezed path loses its empty segment. */
  lemma RouteRoundTrip(path: string)
    requires HasPrefix(path, PREFIX)
    requires ParseOriginPath(path).Some? && Path(ParseOriginPath(path).value).Some?
    ensures Reprint(ParseOriginPath(path).value) == Some(path) <==> !Squeezed(path)
  {
    hide Split, Join, IsHost, ParseKind, Path, ParseOriginPath, Separated, Reprint;
    ParseIsSegments(path);
    var p := TrimPrefix(path, PREFIX);
    assert path == PREFIX + p;
    JoinSplit(p, '/');
    var s := Segments(path);
    var n := |s| - 2;
    JoinLastTwo(s);
    ImageParts(s[0], s[1..n]);
    assert [s[0]] + s[1..n] == s[..n];
    var all := Join(s[..n], '/');
    var end := "/" + s[n] + "/" + s[n + 1];
    assert p == all + end;
    if IsHost(s[0]) {
      ReprintedKind(s[0], Join(s[1..n], '/'), s[n], s[n + 1]);
    } else if Squeezed(path) {
      ReprintedKind("", s[0], s[n], s[n + 1]);
      assert |s[0] + end| < |all + end|;
    } else {
      ReprintedKind("", all, s[n], s[n + 1]);
    }
  }

  lemma JoinLastTwo(s: seq<string>)
    requires |s| >= 3
    ensures Join(s, '/') == Join(s[..|s| - 2], '/') + "/" + s[|s| - 2] + "/" + s[|s| - 1]
  {
    var n := |s| - 2;
    assert s[..n + 1][..n] == s[..n];
  }

  ghost predicate WellFormedImage(host: string, image: string) {
    var parts := Split(image, '/');
    if host != "" then IsHost(host) && image != ""
    else parts[0] != "" && !IsHost(parts[0]) && (|parts| == 2 ==> parts[1] != "")
  }

  /** The records the parser can produce for a recognised kind. */
  ghost predicate WellFormed(info: PathInfo) {
    && WellFormedImage(info.host, info.image)
    && info.isDigestManifests == HasPrefix(info.manifests, DIGEST_PREFIX)
    && '/' !in info.manifests && '/' !in info.blobs
    && (if info.tagsList then info.manifests == "" && info.blobs == ""
        else if info.manifests != "" then info.blobs == ""
        else |info.blobs| == DIGEST_LENGTH)
  }

  lemma ParsedKind(host: string, image: string, kind: string, name: string)
    requires ParseKind(host, image, kind, name).Some? && '/' !in name
    ensures
      var info := ParseKind(host, image, kind, name).value;
      Path(info).Some? ==> (WellFormed(info) <==> WellFormedImage(host, image))
  {
    hide Split, IsHost;
  }

  /** Every printable parse result is well formed. */
  lemma ParsedWellFormed(path: string)
    requires ParseOriginPath(path).Some? && Path(ParseOriginPath(path).value).Some?
    ensures WellFormed(ParseOriginPath(path).value)
  {
    hide Split, Join, IsHost, ParseKind, Path, ParseOriginPath, WellFormed;
    ParseIsSegments(path);
    var s := Segments(path);
    JoinSplit(TrimPrefix(path, PREFIX), '/');
    var n := |s| - 2;
    if IsHost(s[0]) {
      ImageParts(s[0], s[1..n]);
      ParsedKind(s[0], Join(s[1..n], '/'), s[n], s[n + 1]);
    } else {
      var parts := if n == 2 && s[1] == "" then [s[0]] else s[..n];
      SplitJoin(parts, '/');
      JoinOne(s[0]);
      ParsedKind("", Join(parts, '/'), s[n], s[n + 1]);
    }
  }

  lemma JoinOne(s: string)
    ensures Join([s], '/') == s
  {
  }

  /** The segments a well-formed record prints as. */
  ghost function PrintedSegments(info: PathInfo): seq<string> {
    (if info.host == "" then [] else [info.host]) + Split(info.image, '/') +
    (if info.tagsList then ["tags", "list"]
     else if info.manifests != "" then ["manifests", info.manifests]
     else ["blobs", info.blobs])
  }

  lemma PrintedEnd(info: PathInfo)
    requires WellFormed(info)
    ensures
      var s := PrintedSegments(info);
      var n := |s| - 2;
      && n >= 1
      && Path(info) == Some(PREFIX + (info.image + ("/" + s[n] + "/" + s[n + 1])))
      && '/' !in s[n] && '/' !in s[n + 1]
      && s[..n] == (if info.host == "" then [] else [info.host]) + Split(info.image, '/')
  {
    hide Split, IsHost;
    var s := PrintedSegments(info);
    var n := |s| - 2;
    var end := "/" + s[n] + "/" + s[n + 1];
    if info.tagsList {
      assert Path(info).value == PREFIX + (info.image + end);
    } else if info.manifests != "" {
      assert Path(info).value == PREFIX + (info.image + end);
    } else {
      assert Path(info).value == PREFIX + (info.image + end);
    }
  }

  lemma PrintedImage(info: PathInfo)
    requires WellFormed(info)
    ensures
      var parts := (if info.host == "" then [] else [info.host]) + Split(info.image, '/');
      && Separated(parts, '/')
      && Join(parts, '/') == if info.host == "" then info.image else info.host + "/" + info.image
  {
    hide Split, Join, IsHost;
    var image := Split(info.image, '/');
    JoinSplit(info.image, '/');
    if info.host == "" {
      assert [] + image == image;
    } else {
      HostHasNoSeparators(info.host);
      JoinConcat([info.host], image, '/');
      JoinOne(info.host);
    }
  }

  lemma ReprintSegments(info: PathInfo)
    requires WellFormed(info)
    ensures Reprint(info) == Some(PREFIX + Join(PrintedSegments(info), '/'))
    ensures Separated(PrintedSegments(info), '/')
  {
    hide Split, Join, WellFormed, Path, PrintedSegments;
    PrintedEnd(info);
    PrintedImage(info);
    var s := PrintedSegments(info);
    var n := |s| - 2;
    assert s == s[..n] + [s[n], s[n + 1]];
    JoinLastTwo(s);
    var end := "/" + s[n] + "/" + s[n + 1];
    assert Join(s, '/') == Join(s[..n], '/') + end;
    if info.host != "" {
      assert Path(info).value[|PREFIX|..] == info.image + end;
      assert PREFIX + info.host + "/" + (info.image + end) == PREFIX + ((info.host + "/" + info.image) + end);
    }
  }

  lemma HostHasNoSeparators(s: string)
    requires IsHost(s)
    ensures s != "" && '/' !in s && ':' !in s && '@' !in s
  {
    HostCharacters(s);
  }

  lemma WellFormedReparses(info: PathInfo)
    requires WellFormed(info)
    ensures Reprint(info).Some? && ParseOriginPath(Reprint(info).value) == Some(info)
  {
    hide Split, Join, IsHost, Accepts, ParseOriginPath;
    ReprintSegments(info);
    var s := PrintedSegments(info);
    var path := Reprint(info).value;
    assert TrimPrefix(path, PREFIX) == Join(s, '/');
    SplitJoin(s, '/');
    ParseIsSegments(path);
    var image := Split(info.image, '/');
    JoinSplit(info.image, '/');
    var n := |s| - 2;
    if info.host == "" {
      assert s[..n] == image;
      JoinOne(s[0]);
    } else {
      HostHasNoSeparators(info.host);
      assert s[1..n] == image;
      if |image| == 1 { assert image == [s[1]]; JoinOne(s[1]); }
    }
  }

  /** Parsing undoes printing on exactly the well-formed records, which are the ones the parser produces. */
  lemma PrintRoundTrip(info: PathInfo)
    requires Path(info).Some?
    ensures ParseOriginPath(Reprint(info).value) == Some(info) <==> WellFormed(info)
  {
    hide Path, ParseOriginPath, WellFormed;
    if WellFormed(info) { WellFormedReparses(info); }
    if ParseOriginPath(Reprint(info).value) == Some(info) { ParsedWellFormed(Reprint(info).value); }
  }

  // ---- The token service and the gateway on the same path.

  /** Both read the same image and host from a path, unless it is squeezed. */
  lemma Agreement(path: string, allowPrefix: bool, source: string)
    requires ParseOriginPath(path).Some?
    ensures GetImage(path).Some?
    ensures
      var info := ParseOriginPath(path).value;
      var got := GetHostAndImage(GetImage(path).value, allowPrefix, source);
      if info.host != "" then got == if allowPrefix then Some((info.host, info.image)) else None
      else if source == "" then got == None
      else got == Some((source, info.image)) <==> !Squeezed(path)
  {
    hide Split, Join, IsHost, Accepts, ParseKind, ParseOriginPath;
    ParseIsSegments(path);
    var s := Segments(path);
    var n := |s| - 2;
    JoinSplit(TrimPrefix(path, PREFIX), '/');
    var repo := Join(s[..n], '/');
    ImageParts(s[0], s[1..n]);
    assert [s[0]] + s[1..n] == s[..n];
    ParsedNames(s);
    CutFirst(s[0], s[1..n]);
    if Squeezed(path) {
      assert repo == s[0] + "/";
    }
  }

  /** Cutting a joined image at its first slash gives its first segment. */
  lemma CutFirst(first: string, rest: seq<string>)
    requires '/' !in first
    ensures
      var repo := Join([first] + rest, '/');
      Cut(repo, '/') == if rest == [] then None else Some((first, Join(rest, '/')))
  {
    ImageParts(first, rest);
    var repo := Join([first] + rest, '/');
    var i := IndexOf(repo, '/');
    if rest != [] {
      assert repo[|first|] == '/';
      assert repo[..|first|] == first;
    }
  }

  lemma ParsedNames(s: seq<string>)
    requires |s| >= 1 && ParseSegments(s).Some?
    ensures |s| >= 3
    ensures
      var info := ParseSegments(s).value;
      var n := |s| - 2;
      if IsHost(s[0]) then info.host == s[0] && info.image == Join(s[1..n], '/') && n > 1
      else info.host == "" && info.image == if n == 2 && s[1] == "" then s[0] else Join(s[..n], '/')
  {
  }
}
