/** The queue's name for a manifest, printed by the gateway and parsed by the runner. */
module QueueContent {
  import opened Collections
  import opened Strings
  import Routes

  function FormatPathInfo(host: string, image: string, manifests: string): string {
    if HasPrefix(manifests, DIGEST_PREFIX) then host + "/" + image + "@" + manifests
    else host + "/" + image + ":" + manifests
  }

  datatype Manifest = Manifest(host: string, image: string, reference: string)

  /** The runner cuts at the first '@', or else at the first ':', unless that is the first character. */
  function CutAt(content: string): int {
    var at := IndexOf(content, '@');
    if at > 0 then at else IndexOf(content, ':')
  }

  function ParseContent(content: string): Option<Manifest> {
    var cut := CutAt(content);
    if cut <= 0 then None
    else
      match Routes.Cut(content[..cut], '/')
      case None => None
      case Some(pair) => Some(Manifest(pair.0, pair.1, content[cut + 1..]))
  }

  /** Exactly the names that survive the queue. */
  predicate Recoverable(host: string, image: string, manifests: string) {
    && '/' !in host
    && if HasPrefix(manifests, DIGEST_PREFIX) then
         '@' !in host && '@' !in image
       else
         && ':' !in host && ':' !in image
         && (HasPrefix(host, "@") || ('@' !in host && '@' !in image && '@' !in manifests))
  }

  lemma CutPlace(left: string, mark: char, right: string)
    requires left != "" && mark in "@:"
    ensures
      CutAt(left + [mark] + right) == |left| <==>
        if mark == '@' then '@' !in left
        else ':' !in left && (left[0] == '@' || ('@' !in left && '@' !in right))
  {
    var s := left + [mark] + right;
    var at, colon := IndexOf(s, '@'), IndexOf(s, ':');
    assert s[|left|] == mark && s[..|left|] == left && s[|left| + 1..] == right;
    assert s[0] == left[0];
    if at > |left| { assert s[at] == right[at - |left| - 1]; }
    if 0 <= at < |left| { assert s[at] == left[at]; }
    if at < 0 {
      assert forall k | 0 <= k < |left| :: left[k] == s[k];
      assert forall k | 0 <= k < |right| :: right[k] == s[|left| + 1 + k];
    }
    if 0 <= colon < |left| { assert s[colon] == left[colon]; }
    if colon == |left| { assert ':' !in left; }
    if at == |left| { assert '@' !in left; }
    if at > |left| { assert s[..at][..|left|] == left; }
    if colon > |left| { assert s[..colon][|left|] == mark; }
  }

  /** The runner recovers host, image and reference exactly from the recoverable names. */
  lemma ContentRoundTrip(host: string, image: string, manifests: string)
    ensures
      ParseContent(FormatPathInfo(host, image, manifests)) == Some(Manifest(host, image, manifests))
      <==> Recoverable(host, image, manifests)
  {
    hide IndexOf;
    var left := host + "/" + image;
    var mark := if HasPrefix(manifests, DIGEST_PREFIX) then '@' else ':';
    var s := left + [mark] + manifests;
    assert FormatPathInfo(host, image, manifests) == s;
    CutPlace(left, mark, manifests);
    assert left[|host|] == '/' && left[..|host|] == host && left[|host| + 1..] == image;
    assert left[0] == '@' <==> HasPrefix(host, "@");
    InParts(host, image, '@');
    InParts(host, image, ':');
    var cut := CutAt(s);
    if cut == |left| {
      assert s[..cut] == left && s[cut + 1..] == manifests;
    } else if cut > 0 {
      assert |s[cut + 1..]| != |manifests|;
    }
  }

  lemma InParts(host: string, image: string, c: char)
    requires c != '/'
    ensures c in host + "/" + image <==> c in host || c in image
  {
    var left := host + "/" + image;
    forall k | 0 <= k < |image| ensures image[k] == left[|host| + 1 + k] {}
  }

  /** Hence equal contents name equal manifests: deduplication never merges two recoverable ones. */
  lemma ContentInjective(a: Manifest, b: Manifest)
    requires Recoverable(a.host, a.image, a.reference) && Recoverable(b.host, b.image, b.reference)
    requires FormatPathInfo(a.host, a.image, a.reference) == FormatPathInfo(b.host, b.image, b.reference)
    ensures a == b
  {
    ContentRoundTrip(a.host, a.image, a.reference);
    ContentRoundTrip(b.host, b.image, b.reference);
  }

  /** Outside that set it can: a tagged image with an '@' in its name takes the content of a digest. */
  lemma ContentCollision()
    ensures FormatPathInfo("h.io", "i@sha256", "t") == FormatPathInfo("h.io", "i", "sha256:t") == "h.io/i@sha256:t"
    ensures Recoverable("h.io", "i", "sha256:t") && !Recoverable("h.io", "i@sha256", "t")
  {
    assert "i@sha256"[1] == '@' && "t"[0] != "sha256:"[0] && "h.io"[0] != '@';
  }

  /** A manifest route with an explicit host reaches the runner unchanged exactly if image and tag avoid the marks. */
  lemma RouteReachesRunner(path: string)
    requires Routes.ParseOriginPath(path).Some?
    requires Routes.ParseOriginPath(path).value.host != "" && Routes.ParseOriginPath(path).value.manifests != ""
    ensures
      var info := Routes.ParseOriginPath(path).value;
      ParseContent(FormatPathInfo(info.host, info.image, info.manifests))
      == Some(Manifest(info.host, info.image, info.manifests))
      <==> '@' !in info.image && (info.isDigestManifests || (':' !in info.image && '@' !in info.manifests))
  {
    hide Routes.ParseOriginPath;
    var info := Routes.ParseOriginPath(path).value;
    Routes.ParsedWellFormed(path);
    Routes.HostHasNoSeparators(info.host);
    ContentRoundTrip(info.host, info.image, info.manifests);
  }
}
