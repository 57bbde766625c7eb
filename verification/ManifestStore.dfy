/** The content-addressed store behind manifests: links by tag and by digest, and the blobs they name.
    Paths are structured keys, bytes are characters, and storing one value is one atomic update. */
module ManifestStore {
  import opened Collections
  import opened Strings

  /** Hashing (in hexadecimal) and the media type of a content, None if it is not a manifest. */
  datatype World = World(hash: string -> string, mediaType: string -> Option<string>)

  /** No collisions, and a hash is at least two characters and never looks like a digest. */
  ghost predicate Sound(w: World) {
    && (forall a, b :: w.hash(a) == w.hash(b) ==> a == b)
    && (forall a :: |w.hash(a)| >= 2 && !HasPrefix(w.hash(a), DIGEST_PREFIX))
  }

  datatype Key =
    | Blob(hash: string)
    | Rev(host: string, image: string, hash: string)
    | Tag(host: string, image: string, tag: string)

  type Store = map<Key, string>

  datatype Manifest = Manifest(content: string, digest: string, mediaType: string)

  function CleanDigest(blob: string): string {
    TrimPrefix(blob, DIGEST_PREFIX)
  }

  function EnsureDigestPrefix(blob: string): string {
    if HasPrefix(blob, DIGEST_PREFIX) then blob else DIGEST_PREFIX + blob
  }

  function Digest(w: World, content: string): string {
    DIGEST_PREFIX + w.hash(content)
  }

  function BlobKey(blob: string): Key {
    Blob(CleanDigest(blob))
  }

  /** The path of a blob takes the first two characters of its hash; the program panics if there are fewer. */
  function BlobPath(blob: string): Option<Key> {
    if |CleanDigest(blob)| < 2 then None else Some(BlobKey(blob))
  }

  /** How a call ends that can panic on its arguments. */
  datatype Outcome<+T> = Done(value: T) | Failed | Panicked

  /** Where a reference is looked up: a digest loses its prefix twice. */
  function LinkKey(host: string, image: string, ref: string): Key {
    if HasPrefix(ref, DIGEST_PREFIX) then Rev(host, image, CleanDigest(ref[|DIGEST_PREFIX|..]))
    else Tag(host, image, ref)
  }

  /** A put is accepted if the content is a manifest and a digest reference is its own. */
  predicate Acceptable(w: World, ref: string, content: string) {
    w.mediaType(content).Some? && (HasPrefix(ref, DIGEST_PREFIX) ==> ref == Digest(w, content))
  }

  /** What a reference reads as. */
  function Lookup(w: World, store: Store, host: string, image: string, ref: string): Option<Manifest> {
    var link := LinkKey(host, image, ref);
    if link !in store || BlobKey(store[link]) !in store then None
    else
      var content := store[BlobKey(store[link])];
      match w.mediaType(content)
      case None => None
      case Some(mediaType) => Some(Manifest(content, store[link], mediaType))
  }

  /** A link to something that is stored but is no manifest. */
  predicate Dirty(w: World, store: Store, link: Key) {
    link in store && BlobKey(store[link]) in store && w.mediaType(store[BlobKey(store[link])]).None?
  }

  /** Every blob is stored under its hash and every link holds the digest of some content. */
  ghost predicate Consistent(w: World, store: Store) {
    && (forall h | Blob(h) in store :: w.hash(store[Blob(h)]) == h)
    && (forall host, image, h | Rev(host, image, h) in store ::
          store[Rev(host, image, h)] == DIGEST_PREFIX + h && IsHash(w, h))
    && (forall host, image, tag | Tag(host, image, tag) in store :: IsDigest(w, store[Tag(host, image, tag)]))
  }

  ghost predicate IsHash(w: World, h: string) {
    exists c :: w.hash(c) == h
  }

  ghost predicate IsDigest(w: World, d: string) {
    HasPrefix(d, DIGEST_PREFIX) && IsHash(w, CleanDigest(d))
  }

  lemma DigestClean(w: World, content: string)
    ensures CleanDigest(Digest(w, content)) == w.hash(content)
    ensures IsDigest(w, Digest(w, content))
  {
  }

  /** Names and digests written out: with or without the mark a name stands for the same blob. */
  lemma DigestNames(host: string, image: string, h: string)
    requires !HasPrefix(h, "sha256:")
    ensures CleanDigest(h) == CleanDigest("sha256:" + h) == h
    ensures EnsureDigestPrefix(h) == EnsureDigestPrefix("sha256:" + h) == "sha256:" + h
    ensures LinkKey(host, image, "sha256:" + h) == Rev(host, image, h) && LinkKey(host, image, h) == Tag(host, image, h)
    ensures BlobPath(h) == BlobPath("sha256:" + h) == if |h| < 2 then None else Some(Blob(h))
  {
    assert ("sha256:" + h)[|DIGEST_PREFIX|..] == h;
  }

  /** A digest reads as the manifest that hashes to it, exactly if its revision link and its blob are stored. */
  lemma LookupDigest(w: World, store: Store, host: string, image: string, h: string, m: Manifest)
    requires Sound(w) && Consistent(w, store) && !HasPrefix(h, "sha256:")
    ensures Lookup(w, store, host, image, "sha256:" + h) == Some(m) <==>
      && Rev(host, image, h) in store && Blob(h) in store
      && m.digest == "sha256:" + h && w.hash(m.content) == h && w.mediaType(m.content) == Some(m.mediaType)
  {
    DigestNames(host, image, h);
    if Rev(host, image, h) in store { assert store[Rev(host, image, h)] == "sha256:" + h; }
  }

  /** A tag reads as a manifest exactly if its link holds the digest and the blob is stored. */
  lemma LookupTag(w: World, store: Store, host: string, image: string, tag: string, m: Manifest)
    requires Sound(w) && Consistent(w, store) && !HasPrefix(tag, "sha256:")
    ensures Lookup(w, store, host, image, tag) == Some(m) <==>
      && Tag(host, image, tag) in store && store[Tag(host, image, tag)] == m.digest
      && m.digest == "sha256:" + w.hash(m.content) && Blob(w.hash(m.content)) in store
      && w.mediaType(m.content) == Some(m.mediaType)
  {
    DigestNames(host, image, tag);
    DigestClean(w, m.content);
    if Tag(host, image, tag) in store { LinkedDigest(w, store, Tag(host, image, tag)); }
  }

  class Cache {
    const world: World
    var store: Store

    constructor (world: World)
      ensures this.world == world && store == map[]
    {
      this.world := world;
      store := map[];
    }

    method PutContent(key: Key, content: string)
      modifies this
      ensures store == old(store)[key := content]
    {
      store := store[key := content];
    }

    /** Streams the chunks into a writer that is committed only after size and hash were checked.
        `broken` says that the reader failed after them. */
    method PutWithHash(key: Key, chunks: seq<string>, broken: bool, cacheHash: string, cacheSize: nat)
      returns (n: nat, ok: bool)
      modifies this
      ensures ok <==>
        !broken && (cacheSize > 0 ==> |Flatten(chunks)| == cacheSize) && world.hash(Flatten(chunks)) == cacheHash
      ensures store == if ok then old(store)[key := Flatten(chunks)] else old(store)
      ensures n == if ok then |Flatten(chunks)| else 0
    {
      var written, hashed := "", "";
      for i := 0 to |chunks|
        invariant written == hashed == Flatten(chunks[..i]) && store == old(store)
      {
        assert chunks[..i + 1][..i] == chunks[..i];
        hashed := hashed + chunks[i];
        written := written + chunks[i];
      }
      assert chunks[..|chunks|] == chunks;
      if broken { return 0, false; }
      if cacheSize > 0 && |written| != cacheSize { return 0, false; }
      if world.hash(hashed) != cacheHash { return 0, false; }
      store := store[key := written];
      return |written|, true;
    }

    method PutBlob(blob: string, chunks: seq<string>, broken: bool) returns (r: Outcome<nat>)
      modifies this
      ensures r.Panicked? <==> |CleanDigest(blob)| < 2
      ensures r.Done? <==> !r.Panicked? && !broken && world.hash(Flatten(chunks)) == CleanDigest(blob)
      ensures r.Done? ==> r.value == |Flatten(chunks)| && store == old(store)[BlobKey(blob) := Flatten(chunks)]
      ensures !r.Done? ==> store == old(store)
      ensures Consistent(world, old(store)) ==> Consistent(world, store)
    {
      var path := BlobPath(blob);
      if path.None? { return Panicked; }
      var n, ok := PutWithHash(path.value, chunks, broken, CleanDigest(blob), 0);
      r := if ok then Done(n) else Failed;
    }

    method PutBlobContent(blob: string, content: string) returns (r: Outcome<nat>)
      modifies this
      ensures r.Panicked? <==> |CleanDigest(blob)| < 2
      ensures r.Done? <==> !r.Panicked? && world.hash(content) == CleanDigest(blob)
      ensures r.Done? ==> r.value == |content| && store == old(store)[BlobKey(blob) := content]
      ensures !r.Done? ==> store == old(store)
    {
      var path := BlobPath(blob);
      if path.None? { return Panicked; }
      assert Flatten([content]) == content;
      var n, ok := PutWithHash(path.value, [content], false, CleanDigest(blob), |content|);
      r := if ok then Done(n) else Failed;
    }

    /** A rejected put changes nothing; a finished one reads back by its reference and by its digest. */
    method PutManifestContent(host: string, image: string, ref: string, content: string)
      returns (r: Option<(nat, string, string)>)
      requires Sound(world) && Consistent(world, store)
      modifies this
      ensures Consistent(world, store)
      ensures r.Some? <==>
        world.mediaType(content).Some? && (HasPrefix(ref, "sha256:") ==> ref == "sha256:" + world.hash(content))
      ensures r.None? ==> store == old(store)
      ensures r.Some? ==> r.value.0 == |content| && r.value.1 == Digest(world, content)
      ensures r.Some? ==> world.mediaType(content) == Some(r.value.2)
      ensures r.Some? ==> Lookup(world, store, host, image, ref) == Some(Manifest(content, r.value.1, r.value.2))
      ensures r.Some? ==> Lookup(world, store, host, image, r.value.1) == Some(Manifest(content, r.value.1, r.value.2))
      ensures r.Some? ==> store == Published(world, old(store), host, image, ref, content)
      ensures
        var h := world.hash(content);
        var tagged :=
          if HasPrefix(ref, "sha256:") then old(store) else old(store)[Tag(host, image, ref) := "sha256:" + h];
        r.Some? ==> store == tagged[Rev(host, image, h) := "sha256:" + h][Blob(h) := content]
    {
      var mediaType := world.mediaType(content);
      if mediaType.None? { return None; }
      var hash := Digest(world, content);
      DigestClean(world, content);
      if HasPrefix(ref, DIGEST_PREFIX) {
        if ref != hash { return None; }
      } else {
        PutContent(Tag(host, image, ref), hash);
      }
      PutContent(Rev(host, image, CleanDigest(hash)), hash);
      var put := PutBlobContent(hash, content);
      assert HasPrefix(hash, DIGEST_PREFIX) && hash[|DIGEST_PREFIX|..] == world.hash(content);
      r := Some((put.value, hash, mediaType.value));
    }

    /** Reads through the link; a stored content that is no manifest is deleted together with the link to it. */
    method GetManifestContent(host: string, image: string, ref: string) returns (r: Option<Manifest>)
      requires Sound(world) && Consistent(world, store)
      modifies this
      ensures Consistent(world, store)
      ensures r == Lookup(world, old(store), host, image, ref)
      ensures r.Some? ==> r.value.digest == Digest(world, r.value.content)
      ensures
        var link := LinkKey(host, image, ref);
        && (store ==
              if Dirty(world, old(store), link) then old(store) - {BlobKey(old(store)[link]), link} else old(store))
        && if link !in old(store) || BlobKey(old(store)[link]) !in old(store) then store == old(store)
        else
          var blob := BlobKey(old(store)[link]);
          store == if world.mediaType(old(store)[blob]).Some? then old(store) else old(store) - {blob, link}
    {
      var link := LinkKey(host, image, ref);
      if link !in store { return None; }
      var digest := store[link];
      LinkedDigest(world, store, link);
      assert BlobPath(digest) == Some(BlobKey(digest));
      if BlobKey(digest) !in store { return None; }
      var content := store[BlobKey(digest)];
      match world.mediaType(content) {
        case None =>
          store := store - {BlobKey(digest)};
          store := store - {link};
          return None;
        case Some(mediaType) =>
          return Some(Manifest(content, digest, mediaType));
      }
    }

    /** Points a tag at a blob that is stored, whether or not that is a manifest. Panics, with nothing changed,
        exactly if fewer than two characters are left of the digest without its prefix. */
    method RelinkManifest(host: string, image: string, tag: string, blob: string) returns (r: Outcome<()>)
      requires Sound(world) && Consistent(world, store)
      modifies this
      ensures Consistent(world, store)
      ensures r.Panicked? <==> |CleanDigest(blob)| < 2
      ensures r.Done? <==> !r.Panicked? && Blob(CleanDigest(blob)) in old(store)
      ensures store == if r.Done? then Relinked(old(store), host, image, tag, blob) else old(store)
      ensures forall h | !HasPrefix(h, "sha256:") && (blob == h || blob == "sha256:" + h) ::
        store ==
        if |h| < 2 || Blob(h) !in old(store) then old(store)
        else old(store)[Tag(host, image, tag) := "sha256:" + h][Rev(host, image, h) := "sha256:" + h]
    {
      var digest := EnsureDigestPrefix(blob);
      var path := BlobPath(digest);
      if path.None? {
        assert |CleanDigest(digest)| < 2;
        return Panicked;
      }
      if path.value !in store { return Failed; }
      PutContent(Tag(host, image, tag), digest);
      PutContent(Rev(host, image, CleanDigest(digest)), digest);
      return Done(());
    }
  }

  /** The three writes of an accepted put. */
  function Published(w: World, store: Store, host: string, image: string, ref: string, content: string): Store {
    var digest := Digest(w, content);
    (if HasPrefix(ref, DIGEST_PREFIX) then store else store[Tag(host, image, ref) := digest])
      [Rev(host, image, CleanDigest(digest)) := digest][BlobKey(digest) := content]
  }

  function Relinked(store: Store, host: string, image: string, tag: string, blob: string): Store {
    var digest := EnsureDigestPrefix(blob);
    store[Tag(host, image, tag) := digest][Rev(host, image, CleanDigest(digest)) := digest]
  }

  lemma LinkedDigest(w: World, store: Store, link: Key)
    requires Sound(w) && Consistent(w, store) && link in store && !link.Blob?
    ensures IsDigest(w, store[link]) && |CleanDigest(store[link])| >= 2
    ensures BlobKey(store[link]) in store ==> store[link] == Digest(w, store[BlobKey(store[link])])
  {
    var d := store[link];
    assert IsDigest(w, d);
    var c :| w.hash(c) == CleanDigest(d);
    assert |w.hash(c)| >= 2;
    assert d == DIGEST_PREFIX + CleanDigest(d);
  }

  /** A blob written piecewise. The hash sees every byte handed to Write, the file those it accepts. */
  class BlobWriter {
    const cache: Cache
    const blob: string
    var data: string
    var hashed: string

    constructor (cache: Cache, blob: string)
      requires |CleanDigest(blob)| >= 2
      ensures this.cache == cache && this.blob == blob && data == "" && hashed == ""
    {
      this.cache, this.blob := cache, blob;
      data, hashed := "", "";
    }

    method Write(p: string) returns (n: nat)
      modifies this
      ensures n <= |p| && data == old(data) + p[..n] && hashed == old(hashed) + p
      ensures old(data) == old(hashed) ==> (data == hashed <==> n == |p|)
    {
      hashed := hashed + p;
      n :| n <= |p|;
      data := data + p[..n];
      assert p[..|p|] == p;
    }

    /** After complete writes only, a commit stores nothing but the bytes that hash to the blob's name. */
    method Commit() returns (ok: bool)
      modifies cache
      ensures ok <==> cache.world.hash(hashed) == CleanDigest(blob)
      ensures cache.store == if ok then old(cache.store)[BlobKey(blob) := data] else old(cache.store)
      ensures data == hashed && Consistent(cache.world, old(cache.store)) ==> Consistent(cache.world, cache.store)
    {
      ok := cache.world.hash(hashed) == CleanDigest(blob);
      if ok { cache.PutContent(BlobKey(blob), data); }
    }
  }

  /** Opening the writer of a blob panics on the same names. */
  method OpenBlobWriter(cache: Cache, blob: string) returns (w: Outcome<BlobWriter>)
    ensures w.Panicked? <==> |CleanDigest(blob)| < 2
    ensures w.Done? <==> |CleanDigest(blob)| >= 2
    ensures w.Done? ==> fresh(w.value) && w.value.cache == cache && w.value.blob == blob
    ensures w.Done? ==> w.value.data == "" && w.value.hashed == ""
  {
    if BlobPath(blob).None? { return Panicked; }
    var writer := new BlobWriter(cache, blob);
    return Done(writer);
  }
}
