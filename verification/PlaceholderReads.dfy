/** Which keys the placeholder's objects have, and serving it from them. */
module PlaceholderReads {
  import opened Wrappers
  import opened Text
  import opened Keys
  import opened Catalogs
  import opened Rendering
  import opened Lifecycle
  import opened Reading
  import opened Placeholder
  import opened Replicas

  /** A placeholder as newAvatarPlaceholder makes it from an image file, for the sizes of a catalog. */
  ghost predicate Loaded(p: Default, ext: string, c: Catalog) {
    && p.Configured()
    && ext in {"jpg", "png", "webp"}
    && p.originalKey == KeyString(PlaceholderOriginal(ext))
    && (forall size :: size in p.keys <==> size in c.sizes)
    && (forall size | size in p.keys :: p.keys[size].Keys == ALL_FORMATS)
    && (forall size, f {:trigger PlaceholderThumbnail(size, f)} | size in p.keys && f in p.keys[size] ::
          p.keys[size][f] == KeyString(PlaceholderThumbnail(size, f)))
  }

  /** Encoders never give an empty file. */
  ghost predicate EncodesSomething(codec: Codec) {
    forall img, f :: codec.encode(img, f).Some? ==> codec.encode(img, f).value != []
  }

  // ---------- the targets ----------

  /** What the target at a position is for. */
  function Meaning(ext: string, c: Catalog, i: nat): ObjectKey
    requires i <= 3 * |c.sizes|
  {
    if i == 0 then PlaceholderOriginal(ext) else PlaceholderThumbnail(c.sizes[(i - 1) / 3], FORMATS[(i - 1) % 3])
  }

  lemma KeysAreNonempty(size: string, f: Format, ext: string)
    ensures KeyString(PlaceholderThumbnail(size, f)) != ""
    ensures ext in {"jpg", "png", "webp"} ==> KeyString(PlaceholderOriginal(ext)) != ""
  {
    FirstCharacter(PlaceholderThumbnail(size, f));
    if ext in {"jpg", "png", "webp"} { FirstCharacter(PlaceholderOriginal(ext)); }
  }

  /** A size of a valid catalog has exactly its three targets. */
  lemma ThreeTargets(codec: Codec, p: Default, img: Image, c: Catalog, ext: string, size: string)
    requires Loaded(p, ext, c) && ValidCatalog(c) && size in c.sizes
    ensures Side(c, size) > 0
    ensures SizeTargets(codec, p, img, Side(c, size), size, |FORMATS|)
         == [Target(KeyString(PlaceholderThumbnail(size, Jpeg)), codec.encode(codec.fill(img, Side(c, size)), Jpeg)),
             Target(KeyString(PlaceholderThumbnail(size, Png)), codec.encode(codec.fill(img, Side(c, size)), Png)),
             Target(KeyString(PlaceholderThumbnail(size, Webp)), codec.encode(codec.fill(img, Side(c, size)), Webp))]
  {
    hide KeyString;
    var side := Side(c, size);
    KeysAreNonempty(size, Jpeg, ext);
    KeysAreNonempty(size, Png, ext);
    KeysAreNonempty(size, Webp, ext);
    assert KeyOf(p, size, Jpeg) == KeyString(PlaceholderThumbnail(size, Jpeg));
    assert KeyOf(p, size, Png) == KeyString(PlaceholderThumbnail(size, Png));
    assert KeyOf(p, size, Webp) == KeyString(PlaceholderThumbnail(size, Webp));
    assert SizeTargets(codec, p, img, side, size, 0) == [];
    assert SizeTargets(codec, p, img, side, size, 1) == FormatTarget(codec, p, codec.fill(img, side), size, Jpeg);
    assert SizeTargets(codec, p, img, side, size, 2)
      == SizeTargets(codec, p, img, side, size, 1) + FormatTarget(codec, p, codec.fill(img, side), size, Png);
    assert SizeTargets(codec, p, img, side, size, 3)
      == SizeTargets(codec, p, img, side, size, 2) + FormatTarget(codec, p, codec.fill(img, side), size, Webp);
  }

  /** The bytes the target at a position holds. */
  function BytesAt(codec: Codec, p: Default, img: Image, c: Catalog, i: nat): Option<Bytes>
    requires i <= 3 * |c.sizes|
  {
    if i == 0 then Some(p.raw) else codec.encode(codec.fill(img, Side(c, c.sizes[(i - 1) / 3])), FORMATS[(i - 1) % 3])
  }

  /** The targets are the original, then sizes x formats, each under its own key and with its own render. */
  lemma {:induction false} TargetAt(codec: Codec, p: Default, img: Image, c: Catalog, ext: string, n: nat, i: nat)
    requires Loaded(p, ext, c) && ValidCatalog(c) && n <= |c.sizes| && i <= 3 * n
    ensures |Targets(codec, p, img, c, n)| == 1 + 3 * n
    ensures Targets(codec, p, img, c, n)[i] == Target(KeyString(Meaning(ext, c, i)), BytesAt(codec, p, img, c, i))
  {
    hide KeyString, Loaded, SizeTargets;
    if n == 0 {
      OriginalFirst(p, ext, c);
    } else {
      var before := Targets(codec, p, img, c, n - 1);
      TargetAt(codec, p, img, c, ext, n - 1, if i <= 3 * (n - 1) then i else 0);
      ThreeTargets(codec, p, img, c, ext, c.sizes[n - 1]);
    }
  }

  lemma OriginalFirst(p: Default, ext: string, c: Catalog)
    requires Loaded(p, ext, c)
    ensures OriginalTarget(p) == [Target(KeyString(PlaceholderOriginal(ext)), Some(p.raw))]
  {
    KeysAreNonempty("", Jpeg, ext);
  }

  lemma LoadedFacts(p: Default, ext: string, c: Catalog)
    requires Loaded(p, ext, c)
    ensures ext in {"jpg", "png", "webp"} && p.raw != []
  {
    hide KeyString;
  }

  lemma TargetsDiffer(codec: Codec, p: Default, c: Catalog, ext: string, i: nat, j: nat)
    requires p.img.Some? && Loaded(p, ext, c) && ValidCatalog(c) && "original" !in c.sizes
    requires i < j < |Targets(codec, p, p.img.value, c, |c.sizes|)|
    ensures Targets(codec, p, p.img.value, c, |c.sizes|)[i].key != Targets(codec, p, p.img.value, c, |c.sizes|)[j].key
  {
    hide KeyString, Targets, ValidCatalog, Loaded;
    LoadedFacts(p, ext, c);
    TargetAt(codec, p, p.img.value, c, ext, |c.sizes|, 0);
    TargetAt(codec, p, p.img.value, c, ext, |c.sizes|, i);
    TargetAt(codec, p, p.img.value, c, ext, |c.sizes|, j);
    DifferentSpelling(ext, c, i, j);
  }

  lemma TargetsNotEmpty(codec: Codec, p: Default, c: Catalog, ext: string, i: nat)
    requires p.img.Some? && Loaded(p, ext, c) && ValidCatalog(c) && EncodesSomething(codec)
    requires i < |Targets(codec, p, p.img.value, c, |c.sizes|)|
    requires Targets(codec, p, p.img.value, c, |c.sizes|)[i].data.Some?
    ensures Targets(codec, p, p.img.value, c, |c.sizes|)[i].data.value != []
  {
    hide KeyString, Targets, ValidCatalog, Loaded, Meaning;
    LoadedFacts(p, ext, c);
    TargetAt(codec, p, p.img.value, c, ext, |c.sizes|, 0);
    TargetAt(codec, p, p.img.value, c, ext, |c.sizes|, i);
  }

  /** A size called "original" has a thumbnail under the original's key. */
  lemma OriginalClashes(codec: Codec, p: Default, c: Catalog, ext: string) returns (i: nat)
    requires p.img.Some? && Loaded(p, ext, c) && ValidCatalog(c) && "original" in c.sizes
    ensures var ts := Targets(codec, p, p.img.value, c, |c.sizes|); 0 < i < |ts| && ts[0].key == ts[i].key
  {
    hide KeyString, Targets, ValidCatalog, Loaded;
    LoadedFacts(p, ext, c);
    var n :| 0 <= n < |c.sizes| && c.sizes[n] == "original";
    var j := if ext == "jpg" then 0 else if ext == "png" then 1 else 2;
    i := 1 + 3 * n + j;
    TargetAt(codec, p, p.img.value, c, ext, |c.sizes|, 0);
    TargetAt(codec, p, p.img.value, c, ext, |c.sizes|, i);
    hide Meaning, BytesAt;
    SameSpelling(ext, c, n, j);
  }

  /** No two targets share a key exactly when no size of the catalog is called "original". */
  lemma TargetsSoundIff(codec: Codec, p: Default, c: Catalog, ext: string)
    requires p.img.Some? && Loaded(p, ext, c) && ValidCatalog(c) && EncodesSomething(codec)
    ensures Sound(Targets(codec, p, p.img.value, c, |c.sizes|)) <==> "original" !in c.sizes
  {
    hide KeyString, Targets, ValidCatalog, Loaded, EncodesSomething;
    var ts := Targets(codec, p, p.img.value, c, |c.sizes|);
    if "original" in c.sizes {
      var i := OriginalClashes(codec, p, c, ext);
    } else {
      forall i, j | 0 <= i < j < |ts|
        ensures ts[i].key != ts[j].key
      {
        TargetsDiffer(codec, p, c, ext, i, j);
      }
      forall i | 0 <= i < |ts| && ts[i].data.Some?
        ensures ts[i].data.value != []
      {
        TargetsNotEmpty(codec, p, c, ext, i);
      }
    }
  }

  lemma SameSpelling(ext: string, c: Catalog, n: nat, j: nat)
    requires n < |c.sizes| && c.sizes[n] == "original"
    requires j < 3 && ext == FileExt(FORMATS[j])
    ensures KeyString(Meaning(ext, c, 1 + 3 * n + j)) == KeyString(PlaceholderOriginal(ext))
      == KeyString(Meaning(ext, c, 0))
  {
    hide KeyString;
    var i := 1 + 3 * n + j;
    assert (i - 1) / 3 == n && (i - 1) % 3 == j;
    PlaceholderKeysEqualIff(Meaning(ext, c, i), PlaceholderOriginal(ext));
  }

  lemma DifferentSpelling(ext: string, c: Catalog, i: nat, j: nat)
    requires ext in {"jpg", "png", "webp"} && ValidCatalog(c) && "original" !in c.sizes
    requires i < j <= 3 * |c.sizes|
    ensures KeyString(Meaning(ext, c, i)) != KeyString(Meaning(ext, c, j))
  {
    hide KeyString;
    PlaceholderKeysEqualIff(Meaning(ext, c, i), Meaning(ext, c, j));
    if i > 0 && (i - 1) / 3 == (j - 1) / 3 {
      assert (i - 1) % 3 != (j - 1) % 3;
    }
  }

  // ---------- serving ----------

  datatype PlaceholderError = NoPlaceholder | NotRendered(cause: ReadError)

  /** tryStoredFromS3: which object may answer, and as what. The original answers whatever format was asked for. */
  function StoredTarget(p: Default, size: string, format: string): Option<(string, string)> {
    if size == ""
      || size == "original" then (if p.originalKey == "" then None else Some((p.originalKey, p.contentType)))
    else if KeyOf(p, size, NormalizeFormat(format)) == "" then None
    else Some((KeyOf(p, size, NormalizeFormat(format)), ContentType(NormalizeFormat(format))))
  }

  /** buildPayload; stat and got are what the two storage calls on the stored object return. */
  function BuildPayload(cfg: Config, p: Default, size: string, format: string, stat: Option<Bytes>,
                        got: Option<Bytes>): Result<Payload, PlaceholderError> {
    var stored := StoredTarget(p, size, format);
    if !p.Configured() then Failure(NoPlaceholder)
    else if stored.Some? && TryStored(cfg.codec, stat, got, stored.value.1).Some? then
      Success(TryStored(cfg.codec, stat, got, stored.value.1).value)
    else match FromOriginal(cfg, p.contentType, Some(p.raw), size, format)
      case Success(payload) => Success(payload)
      case Failure(e) => Failure(NotRendered(e))
  }

  /** A storage call on a key fails, finds nothing, or sees the store after some run of the replicas. */
  ghost predicate SeenPlaceholder(ts: seq<Target>, start: map<string, Bytes>, k: string, result: Option<Bytes>) {
    result.Some? ==> exists es: seq<Replicas.Event> :: PlaceholderRead(ts, start, es, k) == result
  }

  function PlaceholderRead(ts: seq<Target>, start: map<string, Bytes>, es: seq<Replicas.Event>,
                           k: string): Option<Bytes> {
    var objects := Replicas.Run(ts, World(start, map[]), es).objects;
    if k in objects then Some(objects[k]) else None
  }

  /**
   What two reads of a target's object can see: an object that was there and not empty at the start; or, if there was
   none, the target's bytes; or, if there was an empty one, that or the target's bytes.
   */
  lemma ReadPair(ts: seq<Target>, start: map<string, Bytes>, i: nat, stat: Option<Bytes>, got: Option<Bytes>)
    requires Sound(ts) && i < |ts| && stat.Some? && got.Some?
    requires SeenPlaceholder(ts, start, ts[i].key, stat) && SeenPlaceholder(ts, start, ts[i].key, got)
    ensures Filled(start, ts[i].key) ==> stat == got == Some(start[ts[i].key])
    ensures ts[i].key !in start ==> stat == got == ts[i].data
    ensures stat == got || stat == Some([]) || got == Some([])
    ensures (stat == ts[i].data || stat == Some([]) || Filled(start, ts[i].key))
      && (got == ts[i].data || got == Some([]) || Filled(start, ts[i].key))
  {
    OneRead(ts, start, i, stat);
    OneRead(ts, start, i, got);
  }

  lemma OneRead(ts: seq<Target>, start: map<string, Bytes>, i: nat, result: Option<Bytes>)
    requires Sound(ts) && i < |ts| && result.Some? && SeenPlaceholder(ts, start, ts[i].key, result)
    ensures if Filled(start, ts[i].key) then result == Some(start[ts[i].key])
            else result == ts[i].data || (ts[i].key in start && result == Some([]))
  {
    var es: seq<Replicas.Event> :| PlaceholderRead(ts, start, es, ts[i].key) == result;
    Convergence(ts, start, es);
    hide Sound, Replicas.Run;
  }

  /** Where the target of a size and format stands. */
  lemma ThumbnailTarget(codec: Codec, p: Default, c: Catalog, ext: string, size: string, f: Format) returns (i: nat)
    requires p.img.Some? && Loaded(p, ext, c) && ValidCatalog(c) && size in c.sizes
    ensures var ts := Targets(codec, p, p.img.value, c, |c.sizes|);
      && i < |ts|
      && ts[i] == Target(KeyString(PlaceholderThumbnail(size, f)), RenderOf(codec, p, c, size, f))
  {
    hide KeyString, Targets, ValidCatalog, Loaded;
    var n :| 0 <= n < |c.sizes| && c.sizes[n] == size;
    var j := if f.Jpeg? then 0 else if f.Png? then 1 else 2;
    i := 1 + 3 * n + j;
    assert (i - 1) / 3 == n && (i - 1) % 3 == j;
    TargetAt(codec, p, p.img.value, c, ext, |c.sizes|, i);
  }

  // ---------- the stored path against the in-memory path ----------

  /** The render of the placeholder image at a size and format. */
  function RenderOf(codec: Codec, p: Default, c: Catalog, size: string, f: Format): Option<Bytes>
    requires p.img.Some?
  {
    codec.encode(codec.fill(p.img.value, Side(c, size)), f)
  }

  /**
   The object under k serves `want`, given what the bucket held at the start and what this process would put: a
   nonempty object is served as it is, however old; a missing one is put first; an empty one is served empty until
   a replica has replaced it.
   */
  predicate Serves(start: map<string, Bytes>, k: string, own: Option<Bytes>, stat: Option<Bytes>, got: Option<Bytes>,
                   want: Bytes) {
    if Filled(start, k) then start[k] == want
    else own == Some(want) && (k in start ==> stat == got == own)
  }

  lemma ServesIff(start: map<string, Bytes>, k: string, own: Option<Bytes>, stat: Option<Bytes>, got: Option<Bytes>,
                  want: Bytes)
    requires stat.Some? && got.Some? && want != []
    requires Filled(start, k) ==> stat == got == Some(start[k])
    requires k !in start ==> stat == got == own
    requires (stat == own || stat == Some([]) || Filled(start, k))
      && (got == own || got == Some([]) || Filled(start, k))
    ensures Serves(start, k, own, stat, got, want) <==> stat == got == Some(want)
  {
  }

  /** A stored answer is a given render exactly when both reads saw its bytes and it has its type. */
  lemma StoredIsRenderedIff(codec: Codec, r: Rendered, stat: Bytes, got: Bytes, contentType: string)
    requires HexDigest(codec) && r.body != []
    requires stat == got || stat == [] || got == []
    ensures Payload(got, contentType, |stat|, Quoted(codec.md5hex(stat)))
         == Payload(r.body, r.contentType, |r.body|, "\"" + codec.md5hex(r.body) + "\"")
       <==> stat == got == r.body && contentType == r.contentType
  {
    assert codec.md5hex(r.body) != "" && codec.md5hex(r.body)[0] != '\"';
  }

  /** The stored path answers, and with the very payload that rendering in memory gives. */
  predicate SameAnswer(cfg: Config, p: Default, size: string, format: string, stat: Option<Bytes>, got: Option<Bytes>) {
    match FromOriginal(cfg, p.contentType, Some(p.raw), size, format)
    case Success(rendered) => BuildPayload(cfg, p, size, format, stat, got) == Success(rendered)
    case Failure(_) => false
  }

  /** Both reads of the stored object a request is looked up under have worked. */
  predicate StoredHit(c: Catalog, size: string, stat: Option<Bytes>, got: Option<Bytes>) {
    (size == "" || size == "original" || size in c.sizes) && stat.Some? && got.Some?
  }

  /**
   What a request for the placeholder is answered with: nothing without a configured image; the stored object, if both
   of its reads work; and otherwise the image rendered in memory, if that works.
   */
  lemma PlaceholderAnswered(cfg: Config, p: Default, ext: string, size: string, format: string, stat: Option<Bytes>,
                            got: Option<Bytes>)
    requires p.Configured() ==> Loaded(p, ext, cfg.catalog)
    ensures var r := BuildPayload(cfg, p, size, format, stat, got);
      var stored := StoredHit(cfg.catalog, size, stat, got);
      var image := RenderMeant(cfg, p.contentType, p.raw, size, format);
      && (r == Failure(NoPlaceholder) <==> !p.Configured())
      && (r.Success? <==> p.Configured() && (stored || AsUploaded(cfg, p.raw, size, format) || image.Some?))
      && (r == Failure(NotRendered(RenderFailed(DecodeFailed))) <==>
            p.Configured() && !stored && TrimSpace(format) != "" && cfg.codec.decode(p.raw) == None)
      && (r == Failure(NotRendered(RenderFailed(EncodeFailed))) <==>
            p.Configured() && !stored && !AsUploaded(cfg, p.raw, size, format) && cfg.codec.decode(p.raw).Some?
              && image == None)
      && (r.Success? && stored ==>
            r.value == Payload(got.value, if size == "" || size == "original" then p.contentType
              else ContentType(NormalizeFormat(format)), |stat.value|, Quoted(cfg.codec.md5hex(stat.value))))
      && (r.Success? && !stored ==>
            var (bytes, contentType) := if AsUploaded(cfg, p.raw, size, format) then (p.raw, p.contentType)
              else (image.value, ContentType(FallbackFormat(p.contentType, format)));
            r.value == Payload(bytes, contentType, |bytes|, "\"" + cfg.codec.md5hex(bytes) + "\""))
  {
    hide KeyString, TrimSpace, NormalizeFormat, FallbackFormat, ContentType, FromOriginal, RenderMeant, AsUploaded,
      Quoted, Loaded;
    if p.Configured() { LoadedKeys(p, ext, cfg.catalog, size, NormalizeFormat(format)); }
    RenderedFromOriginal(cfg, p.contentType, p.raw, size, format);
  }

  lemma LoadedKeys(p: Default, ext: string, c: Catalog, size: string, f: Format)
    requires Loaded(p, ext, c)
    ensures p.originalKey != "" && (KeyOf(p, size, f) != "" <==> size in c.sizes)
  {
    hide KeyString;
    KeysAreNonempty(size, f, ext);
    assert f == Jpeg || f == Png || f == Webp;
    assert f in ALL_FORMATS;
    if size in c.sizes { assert p.keys[size][f] == KeyString(PlaceholderThumbnail(size, f)); }
  }

  /** What rendering in memory gives for a size of the catalog. */
  lemma InMemoryThumbnail(cfg: Config, p: Default, size: string, format: string)
    requires p.img.Some? && cfg.codec.decode(p.raw) == p.img
    requires ValidCatalog(cfg.catalog) && size in cfg.catalog.sizes && size != "original" && TrimSpace(size) == size
    ensures var f := FallbackFormat(p.contentType, format);
      RenderVariant(cfg.codec, cfg.catalog.sides, p.raw, p.contentType, size, format)
      == match RenderOf(cfg.codec, p, cfg.catalog, size, f)
         case None => Failure(EncodeFailed)
         case Some(b) => Success(Rendered(b, ContentType(f)))
  {
    hide TrimSpace, NormalizeFormat, NativeFormat;
    assert size in cfg.catalog.sides;
  }

  lemma ContentTypesDiffer(f: Format, g: Format)
    ensures ContentType(f) == ContentType(g) <==> f == g
  {
  }

  /** The bytes and the type that rendering in memory gives. */
  function Wanted(cfg: Config, p: Default, size: string, format: string): Option<Rendered> {
    match RenderVariant(cfg.codec, cfg.catalog.sides, p.raw, p.contentType, size, format)
    case Success(r) => Some(r)
    case Failure(_) => None
  }

  lemma WantedNotEmpty(cfg: Config, p: Default, size: string, format: string)
    requires p.raw != [] && EncodesSomething(cfg.codec) && Wanted(cfg, p, size, format).Some?
    ensures Wanted(cfg, p, size, format).value.body != []
  {
    hide TrimSpace, NormalizeFormat, NativeFormat;
  }

  /**
   A request for a size that is answered from a stored object gets exactly what rendering in memory would give if
   and only if that rendering exists, has the type of the requested format, and is what the object serves: the
   object was missing or empty when the replicas came and was replaced by it, or holds it already.
   */
  lemma PrewarmedThumbnail(cfg: Config, p: Default, ext: string, size: string, format: string,
                           stat: Option<Bytes>, got: Option<Bytes>, start: map<string, Bytes>)
    requires Loaded(p, ext, cfg.catalog) && ValidCatalog(cfg.catalog)
    requires EncodesSomething(cfg.codec) && HexDigest(cfg.codec)
    requires "original" !in cfg.catalog.sizes && size in cfg.catalog.sizes
    requires stat.Some? && got.Some?
    requires var ts := Targets(cfg.codec, p, p.img.value, cfg.catalog, |cfg.catalog.sizes|);
      var k := KeyString(PlaceholderThumbnail(size, NormalizeFormat(format)));
      SeenPlaceholder(ts, start, k, stat) && SeenPlaceholder(ts, start, k, got)
    ensures var r := BuildPayload(cfg, p, size, format, stat, got); r.Success? && r.value.body == got.value
    ensures var f, want := NormalizeFormat(format), Wanted(cfg, p, size, format);
      SameAnswer(cfg, p, size, format, stat, got)
      <==> want.Some? && want.value.contentType == ContentType(f)
           && Serves(start, KeyString(PlaceholderThumbnail(size, f)), RenderOf(cfg.codec, p, cfg.catalog, size, f),
                     stat, got, want.value.body)
  {
    hide KeyString, Targets, TrimSpace, NormalizeFormat, RenderVariant, EncodesSomething, HexDigest,
      SeenPlaceholder, ValidCatalog, Loaded, StoredTarget, Sound, Serves, ContentType;
    var f := NormalizeFormat(format);
    NotCalledOriginal(cfg.catalog, size);
    StoredThumbnail(p, ext, cfg.catalog, size, format);
    ThumbnailReads(cfg, p, ext, size, f, stat, got, start);
    var want := Wanted(cfg, p, size, format);
    if want.Some? {
      WantedNotEmpty(cfg, p, size, format);
      StoredIsRenderedIff(cfg.codec, want.value, stat.value, got.value, ContentType(f));
      ServesIff(start, KeyString(PlaceholderThumbnail(size, f)), RenderOf(cfg.codec, p, cfg.catalog, size, f),
        stat, got, want.value.body);
    }
  }

  /**
   For a size without white space around it: if and only if the two paths understand the requested format alike and
   the object serves the image's own render.
   */
  lemma PrewarmedTrimmedThumbnail(cfg: Config, p: Default, ext: string, size: string, format: string,
                                  stat: Option<Bytes>, got: Option<Bytes>, start: map<string, Bytes>)
    requires Loaded(p, ext, cfg.catalog) && ValidCatalog(cfg.catalog)
    requires EncodesSomething(cfg.codec) && HexDigest(cfg.codec) && cfg.codec.decode(p.raw) == p.img
    requires "original" !in cfg.catalog.sizes && size in cfg.catalog.sizes && TrimSpace(size) == size
    requires stat.Some? && got.Some?
    requires var ts := Targets(cfg.codec, p, p.img.value, cfg.catalog, |cfg.catalog.sizes|);
      var k := KeyString(PlaceholderThumbnail(size, NormalizeFormat(format)));
      SeenPlaceholder(ts, start, k, stat) && SeenPlaceholder(ts, start, k, got)
    ensures var f := NormalizeFormat(format);
      var own := RenderOf(cfg.codec, p, cfg.catalog, size, f);
      SameAnswer(cfg, p, size, format, stat, got)
      <==> f == FallbackFormat(p.contentType, format)
           && own.Some? && Serves(start, KeyString(PlaceholderThumbnail(size, f)), own, stat, got, own.value)
  {
    hide KeyString, Targets, TrimSpace, NormalizeFormat, FallbackFormat, RenderVariant, EncodesSomething, HexDigest,
      SeenPlaceholder, ValidCatalog, Loaded, Serves, ContentType, SameAnswer;
    PrewarmedThumbnail(cfg, p, ext, size, format, stat, got, start);
    NotCalledOriginal(cfg.catalog, size);
    StoredThumbnail(p, ext, cfg.catalog, size, format);
    InMemoryThumbnail(cfg, p, size, format);
    ContentTypesDiffer(NormalizeFormat(format), FallbackFormat(p.contentType, format));
  }

  /** What a request's two reads of a thumbnail can see. */
  lemma ThumbnailReads(cfg: Config, p: Default, ext: string, size: string, f: Format,
                       stat: Option<Bytes>, got: Option<Bytes>, start: map<string, Bytes>)
    requires p.img.Some? && Loaded(p, ext, cfg.catalog) && ValidCatalog(cfg.catalog) && EncodesSomething(cfg.codec)
    requires "original" !in cfg.catalog.sizes && size in cfg.catalog.sizes && stat.Some? && got.Some?
    requires var ts := Targets(cfg.codec, p, p.img.value, cfg.catalog, |cfg.catalog.sizes|);
      var k := KeyString(PlaceholderThumbnail(size, f));
      SeenPlaceholder(ts, start, k, stat) && SeenPlaceholder(ts, start, k, got)
    ensures var k, own := KeyString(PlaceholderThumbnail(size, f)), RenderOf(cfg.codec, p, cfg.catalog, size, f);
      && (Filled(start, k) ==> stat == got == Some(start[k]))
      && (k !in start ==> stat == got == own)
      && (stat == got || stat == Some([]) || got == Some([]))
      && (stat == own || stat == Some([]) || Filled(start, k)) && (got == own || got == Some([]) || Filled(start, k))
  {
    hide KeyString, Targets, EncodesSomething, SeenPlaceholder, ValidCatalog, Loaded, Sound;
    TargetsSoundIff(cfg.codec, p, cfg.catalog, ext);
    var i := ThumbnailTarget(cfg.codec, p, cfg.catalog, ext, size, f);
    ReadPair(Targets(cfg.codec, p, p.img.value, cfg.catalog, |cfg.catalog.sizes|), start, i, stat, got);
  }

  /** A request for a size of the catalog is looked up under that size's key. */
  lemma StoredThumbnail(p: Default, ext: string, c: Catalog, size: string, format: string)
    requires Loaded(p, ext, c) && size in c.sizes && size != "" && size != "original"
    ensures var f := NormalizeFormat(format);
      StoredTarget(p, size, format) == Some((KeyString(PlaceholderThumbnail(size, f)), ContentType(f)))
    ensures p.Configured()
  {
    hide KeyString, NormalizeFormat;
    KeysAreNonempty(size, NormalizeFormat(format), ext);
  }

  lemma NotCalledOriginal(c: Catalog, size: string)
    requires ValidCatalog(c) && size in c.sizes && "original" !in c.sizes
    ensures size != "" && size != "original"
  {
  }

  /** What rendering in memory gives for the original: the file itself, or its image in the requested format. */
  lemma InMemoryOriginal(cfg: Config, p: Default, size: string, format: string)
    requires p.img.Some? && cfg.codec.decode(p.raw) == p.img && (size == "" || size == "original")
    ensures var f := NormalizeFormat(TrimSpace(format));
      RenderVariant(cfg.codec, cfg.catalog.sides, p.raw, p.contentType, size, format)
      == if TrimSpace(format) == "" then Success(Rendered(p.raw, p.contentType))
         else match cfg.codec.encode(p.img.value, f)
           case None => Failure(EncodeFailed)
           case Some(b) => Success(Rendered(b, ContentType(f)))
  {
    hide TrimSpace, NormalizeFormat;
    NamesAreTrimmed();
  }

  /**
   A request for the original that is answered from the stored object gets that object as it is, as the placeholder's
   type, whatever format it asked for. This is what rendering in memory would give if and only if the requested
   rendering exists, is of the placeholder's own type, and is what the object serves: without a format the file
   itself, with one its image encoded again.
   */
  lemma PrewarmedOriginal(cfg: Config, p: Default, ext: string, size: string, format: string,
                          stat: Option<Bytes>, got: Option<Bytes>, start: map<string, Bytes>)
    requires Loaded(p, ext, cfg.catalog) && ValidCatalog(cfg.catalog) && EncodesSomething(cfg.codec)
      && HexDigest(cfg.codec)
    requires cfg.codec.decode(p.raw) == p.img && "original" !in cfg.catalog.sizes
    requires size == "" || size == "original"
    requires stat.Some? && got.Some?
    requires var ts := Targets(cfg.codec, p, p.img.value, cfg.catalog, |cfg.catalog.sizes|);
      SeenPlaceholder(ts, start, p.originalKey, stat) && SeenPlaceholder(ts, start, p.originalKey, got)
    ensures var r := BuildPayload(cfg, p, size, format, stat, got);
      r.Success? && r.value.body == got.value && r.value.contentType == p.contentType
    ensures var want := Wanted(cfg, p, size, format);
      && want == (if TrimSpace(format) == "" then Some(Rendered(p.raw, p.contentType))
                  else match cfg.codec.encode(p.img.value, NormalizeFormat(TrimSpace(format)))
                    case None => None
                    case Some(b) => Some(Rendered(b, ContentType(NormalizeFormat(TrimSpace(format))))))
      && (SameAnswer(cfg, p, size, format, stat, got)
          <==> want.Some? && want.value.contentType == p.contentType
               && Serves(start, p.originalKey, Some(p.raw), stat, got, want.value.body))
  {
    hide KeyString, Targets, TrimSpace, NormalizeFormat, RenderVariant, EncodesSomething, SeenPlaceholder,
      ValidCatalog, Sound, Loaded, StoredTarget, HexDigest, Serves;
    StoredOriginal(p, ext, cfg.catalog, size, format);
    OriginalReads(cfg, p, ext, stat, got, start);
    WantedOriginal(cfg, p, size, format);
    var want := Wanted(cfg, p, size, format);
    if want.Some? {
      WantedNotEmpty(cfg, p, size, format);
      StoredIsRenderedIff(cfg.codec, want.value, stat.value, got.value, p.contentType);
      ServesIff(start, p.originalKey, Some(p.raw), stat, got, want.value.body);
    }
  }

  /** That rendering: without a format the file itself, with one its image encoded again. */
  lemma WantedOriginal(cfg: Config, p: Default, size: string, format: string)
    requires p.img.Some? && cfg.codec.decode(p.raw) == p.img && (size == "" || size == "original")
    ensures var f := NormalizeFormat(TrimSpace(format));
      Wanted(cfg, p, size, format)
      == if TrimSpace(format) == "" then Some(Rendered(p.raw, p.contentType))
         else match cfg.codec.encode(p.img.value, f)
           case None => None
           case Some(b) => Some(Rendered(b, ContentType(f)))
  {
    hide TrimSpace, NormalizeFormat, RenderVariant;
    InMemoryOriginal(cfg, p, size, format);
  }

  /** A request for the original is looked up under its key, whatever the format. */
  lemma StoredOriginal(p: Default, ext: string, c: Catalog, size: string, format: string)
    requires Loaded(p, ext, c) && (size == "" || size == "original")
    ensures StoredTarget(p, size, format) == Some((p.originalKey, p.contentType))
    ensures p.Configured()
  {
    hide KeyString;
    KeysAreNonempty("", Jpeg, ext);
  }

  /** What a request's two reads of the original can see. */
  lemma OriginalReads(cfg: Config, p: Default, ext: string, stat: Option<Bytes>, got: Option<Bytes>,
                      start: map<string, Bytes>)
    requires p.img.Some? && Loaded(p, ext, cfg.catalog) && ValidCatalog(cfg.catalog) && EncodesSomething(cfg.codec)
    requires "original" !in cfg.catalog.sizes && stat.Some? && got.Some?
    requires var ts := Targets(cfg.codec, p, p.img.value, cfg.catalog, |cfg.catalog.sizes|);
      SeenPlaceholder(ts, start, p.originalKey, stat) && SeenPlaceholder(ts, start, p.originalKey, got)
    ensures var k, own := p.originalKey, Some(p.raw);
      && (Filled(start, k) ==> stat == got == Some(start[k]))
      && (k !in start ==> stat == got == own)
      && (stat == got || stat == Some([]) || got == Some([]))
      && (stat == own || stat == Some([]) || Filled(start, k)) && (got == own || got == Some([]) || Filled(start, k))
  {
    OriginalFirst(p, ext, cfg.catalog);
    hide KeyString, Targets, EncodesSomething, SeenPlaceholder, ValidCatalog, Loaded, Sound;
    TargetsSoundIff(cfg.codec, p, cfg.catalog, ext);
    TargetAt(cfg.codec, p, p.img.value, cfg.catalog, ext, |cfg.catalog.sizes|, 0);
    ReadPair(Targets(cfg.codec, p, p.img.value, cfg.catalog, |cfg.catalog.sizes|), start, 0, stat, got);
  }

  /**
   A replaced image: a bucket that still holds the original of an older file goes on serving that file, in every run
   of the replicas, while the in-memory path gives the new one.
   */
  lemma ReplacedImageIsNotServed(cfg: Config, p: Default, ext: string, older: Bytes, start: map<string, Bytes>)
    requires Loaded(p, ext, cfg.catalog) && ValidCatalog(cfg.catalog) && EncodesSomething(cfg.codec)
      && HexDigest(cfg.codec)
    requires cfg.codec.decode(p.raw) == p.img && "original" !in cfg.catalog.sizes
    requires older != [] && older != p.raw && p.originalKey in start && start[p.originalKey] == older
    ensures var ts := Targets(cfg.codec, p, p.img.value, cfg.catalog, |cfg.catalog.sizes|);
      SeenPlaceholder(ts, start, p.originalKey, Some(older))
    ensures BuildPayload(cfg, p, "", "", Some(older), Some(older)).Success?
    ensures BuildPayload(cfg, p, "", "", Some(older), Some(older)).value.body == older
    ensures !SameAnswer(cfg, p, "", "", Some(older), Some(older))
  {
    hide KeyString, Targets, TrimSpace, EncodesSomething, ValidCatalog, Sound, Loaded, SameAnswer, BuildPayload,
      SeenPlaceholder, HexDigest;
    StoredOriginal(p, ext, cfg.catalog, "", "");
    var ts := Targets(cfg.codec, p, p.img.value, cfg.catalog, |cfg.catalog.sizes|);
    FirstRead(ts, start, p.originalKey);
    NamesAreTrimmed();
    PrewarmedOriginal(cfg, p, ext, "", "", Some(older), Some(older), start);
  }

  lemma FirstRead(ts: seq<Target>, start: map<string, Bytes>, k: string)
    requires k in start
    ensures SeenPlaceholder(ts, start, k, Some(start[k]))
  {
    assert PlaceholderRead(ts, start, [], k) == Some(start[k]);
  }
}
