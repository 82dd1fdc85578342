/** Serving images: the stored path, the render-from-original path, and when the two agree. */
module Reading {
  import opened Wrappers
  import opened Text
  import opened Keys
  import opened Catalogs
  import opened Rendering
  import opened Avatars
  import opened Lifecycle
  import opened Invariants
  import opened Reachability
  import opened Guarantees

  datatype Payload = Payload(body: Bytes, contentType: string, length: nat, etag: string)

  datatype ReadError = ObjectUnavailable | RenderFailed(cause: RenderError)

  /**
   What each storage call of one request returns: the object's bytes at the moment of that call, or None when the
   object is missing or the call fails.
   */
  datatype Calls = Calls(thumbStat: Option<Bytes>, thumbGet: Option<Bytes>, originalStat: Option<Bytes>,
    originalGet: Option<Bytes>, fallbackGet: Option<Bytes>)

  /** The digest is nonempty and unquoted, as hexadecimal text is. */
  ghost predicate HexDigest(codec: Codec) {
    forall b: Bytes :: codec.md5hex(b) != "" && codec.md5hex(b)[0] != '\"'
  }

  function Quoted(etag: string): string {
    if etag != "" && etag[0] != '\"' then "\"" + etag + "\"" else etag
  }

  /** An ETag is quoted once, and a missing one is left alone. */
  lemma QuotedOnce(etag: string)
    ensures Quoted(Quoted(etag)) == Quoted(etag)
    ensures Quoted(etag) == etag <==> etag == "" || etag[0] == '\"'
    ensures Quoted(etag) != etag ==> Quoted(etag) == "\"" + etag + "\""
  {
    if etag != "" && etag[0] != '\"' { assert |Quoted(etag)| == |etag| + 2; }
  }

  /** tryStoredThumbnail: StatObject, then GetObject. */
  function TryStored(codec: Codec, stat: Option<Bytes>, got: Option<Bytes>, contentType: string): Option<Payload> {
    if stat.Some? && got.Some?
    then Some(Payload(got.value, contentType, |stat.value|, Quoted(codec.md5hex(stat.value))))
    else None
  }

  /** The key the stored path looks up, if the row lists one. */
  function StoredKey(a: Avatar, size: string, format: string): Option<ObjectKey> {
    if a.status != Completed || a.thumbs.None? then None
    else if size !in a.thumbs.value then None
    else if NormalizeFormat(format) !in a.thumbs.value[size] then None
    else Some(a.thumbs.value[size][NormalizeFormat(format)])
  }

  /** buildFromOriginal. */
  function FromOriginal(cfg: Config, mime: string, original: Option<Bytes>, size: string,
                        format: string): Result<Payload, ReadError> {
    if original.None? then Failure(ObjectUnavailable)
    else match RenderVariant(cfg.codec, cfg.catalog.sides, original.value, mime, size, format)
      case Failure(e) => Failure(RenderFailed(e))
      case Success(r) => Success(Payload(r.body, r.contentType, |r.body|, "\"" + cfg.codec.md5hex(r.body) + "\""))
  }

  /** buildImagePayload. */
  function BuildImagePayload(cfg: Config, a: Avatar, size: string, format: string,
                             calls: Calls): Result<Payload, ReadError> {
    var wantOriginal := size == "" || size == "original";
    var thumb :=
      if !wantOriginal && StoredKey(a, size, format).Some?
      then TryStored(cfg.codec, calls.thumbStat, calls.thumbGet, ContentType(NormalizeFormat(format))) else None;
    var original :=
      if wantOriginal && TrimSpace(format) == ""
      then TryStored(cfg.codec, calls.originalStat, calls.originalGet, a.mime) else None;
    if thumb.Some? then Success(thumb.value)
    else if original.Some? then Success(original.value)
    else FromOriginal(cfg, a.mime, calls.fallbackGet, size, format)
  }

  /** The format the fallback path encodes a resized image to. */
  function FallbackFormat(mime: string, format: string): Format {
    if TrimSpace(format) == "" then NativeFormat(mime) else NormalizeFormat(TrimSpace(format))
  }

  /** The result of a storage call on a key, made in some state that follows s. */
  ghost predicate SeenAt(cfg: Config, k: ObjectKey, result: Option<Bytes>, s: State) {
    exists t :: LeadsTo(cfg, s, t) && result == ReadIn(t, k)
  }

  function ReadIn(s: State, k: ObjectKey): Option<Bytes> {
    if k in s.objects then Some(s.objects[k]) else None
  }

  /**
   The storage calls of a request whose row was read in s: each fails, or sees the store as it is at some
   later moment, a different one for every call.
   */
  ghost predicate Feasible(cfg: Config, a: Avatar, size: string, format: string, calls: Calls, s: State) {
    && (StoredKey(a, size, format).Some? && calls.thumbStat.Some?
      ==> SeenAt(cfg, StoredKey(a, size, format).value, calls.thumbStat, s))
    && (StoredKey(a, size, format).Some? && calls.thumbGet.Some?
      ==> SeenAt(cfg, StoredKey(a, size, format).value, calls.thumbGet, s))
    && (calls.originalStat.Some? ==> SeenAt(cfg, a.key, calls.originalStat, s))
    && (calls.originalGet.Some? ==> SeenAt(cfg, a.key, calls.originalGet, s))
    && (calls.fallbackGet.Some? ==> SeenAt(cfg, a.key, calls.fallbackGet, s))
  }

  // ---------- the store never contradicts itself ----------

  lemma ApplyKeepsBirth(cfg: Config, s: State, e: Event, id: Id)
    requires id in s.born
    ensures id in Apply(cfg, s, e).born && Apply(cfg, s, e).born[id] == s.born[id]
  {
    hide UploadStep, DeleteStep, JobStep, CleanStep;
  }

  lemma {:induction false} RunKeepsBirth(cfg: Config, s: State, es: seq<Event>, id: Id)
    requires id in s.born
    ensures id in Run(cfg, s, es).born && Run(cfg, s, es).born[id] == s.born[id]
    decreases |es|
  {
    hide Apply;
    if es == [] {
    } else {
      RunKeepsBirth(cfg, s, es[..|es| - 1], id);
      ApplyKeepsBirth(cfg, Run(cfg, s, es[..|es| - 1]), es[|es| - 1], id);
    }
  }

  /** Whenever an avatar's object is read, it is the upload itself or the render of it. */
  lemma SeenIsGenuine(cfg: Config, s: State, k: ObjectKey, result: Option<Bytes>)
    requires Reachable(cfg, s) && k.Avatar?() && k.id in s.born
    requires result.Some? && SeenAt(cfg, k, result, s)
    ensures Genuine(cfg, k, result.value, s.born[k.id])
  {
    hide Apply, Inv, Genuine, Plan, LeadsTo, Run;
    var t :| LeadsTo(cfg, s, t) && result == ReadIn(t, k);
    ReachableInv(cfg, s);
    LeadsToInv(cfg, s, t);
    LeadsToIffRun(cfg, s, t);
    var es: seq<Event> :| Run(cfg, s, es) == t;
    RunKeepsBirth(cfg, s, es, k.id);
    ObjectIsGenuine(cfg, t, k);
  }

  // ---------- the two paths ----------

  /** The request is answered from a stored thumbnail. */
  predicate ThumbnailHit(a: Avatar, size: string, format: string, calls: Calls) {
    size != "" && size != "original" && StoredKey(a, size, format).Some? && calls.thumbStat.Some?
      && calls.thumbGet.Some?
  }

  /** A row's stored key is the thumbnail of its own avatar at the requested size and format. */
  lemma StoredKeyNames(cfg: Config, s: State, id: Id, size: string, format: string)
    requires Reachable(cfg, s) && id in s.rows
    ensures var a := s.rows[id];
      && id in s.born && a.key == s.born[id].key && a.key.Original? && a.key.id == id
      && a.mime == s.born[id].mime
      && (StoredKey(a, size, format).Some? ==>
            size in cfg.catalog.sizes
              && StoredKey(a, size, format).value == Thumbnail(id, size, NormalizeFormat(format)))
  {
    hide Reachable, Inv, Plan, SanitizePathSegment;
    ReachableInv(cfg, s);
    RowsNameTheirThumbnails(cfg, s, id);
  }

  lemma RowsNameTheirThumbnails(cfg: Config, s: State, id: Id)
    requires Inv(cfg, s) && id in s.rows
    ensures id in s.born && s.rows[id].key == s.born[id].key && s.rows[id].mime == s.born[id].mime
    ensures s.rows[id].key.Original? && s.rows[id].key.id == id
    ensures s.rows[id].thumbs == None || s.rows[id].thumbs == Some(FullMap(cfg.catalog.sizes, id))
  {
    hide FullMap, Plan;
    assert Sat(RowsClause, cfg, s);
    assert Sat(BornClause, cfg, s);
  }

  /** The side the fallback path resizes to: it looks up the trimmed label, and leaves any other size unresized. */
  function FallbackSide(c: Catalog, size: string): Option<int> {
    var trimmed := TrimSpace(size);
    if trimmed != "" && trimmed != "original" && trimmed in c.sides then Some(c.sides[trimmed]) else None
  }

  /** The image resized to a side or left as it is, and encoded. */
  function RenderAt(codec: Codec, body: Bytes, side: Option<int>, f: Format): Option<Bytes> {
    match codec.decode(body)
    case None => None
    case Some(img) => codec.encode(if side.Some? then codec.fill(img, side.value) else img, f)
  }

  /**
   The two paths give a request for a stored thumbnail the same rendering: the fallback path encodes to the same
   format, and resizes to the same side or to one that happens to give the same bytes. With neither a side nor a
   format it streams the original, which must then be the thumbnail.
   */
  predicate PathsAgree(cfg: Config, mime: string, body: Bytes, size: string, format: string, stored: Bytes) {
    var side := FallbackSide(cfg.catalog, size);
    if side == None && TrimSpace(format) == "" then mime == ContentType(NormalizeFormat(format)) && body == stored
    else
      && NormalizeFormat(format) == FallbackFormat(mime, format)
      && (side == Some(Side(cfg.catalog, size))
        || RenderAt(cfg.codec, body, side, NormalizeFormat(format)) == Some(stored))
  }

  /** A stored thumbnail is what the fallback path renders exactly when the paths agree. */
  lemma StoredMatchesRenderIff(cfg: Config, mime: string, body: Bytes, size: string, format: string, stored: Bytes)
    requires ValidCatalog(cfg.catalog) && HexDigest(cfg.codec)
    requires size in cfg.catalog.sizes && size != "original"
    requires RenderThumbnail(cfg.codec, cfg.catalog, body, Variant(size, NormalizeFormat(format))) == Some(stored)
    ensures TryStored(cfg.codec, Some(stored), Some(stored), ContentType(NormalizeFormat(format))).Some?
    ensures
      FromOriginal(cfg, mime, Some(body), size, format)
        == Success(TryStored(cfg.codec, Some(stored), Some(stored), ContentType(NormalizeFormat(format))).value)
      <==> PathsAgree(cfg, mime, body, size, format, stored)
  {
    assert cfg.codec.md5hex(stored) != "" && cfg.codec.md5hex(stored)[0] != '\"';
    RenderedAlikeIff(cfg, mime, body, size, format, stored);
    hide TrimSpace, NormalizeFormat, FallbackFormat, RenderVariant, HexDigest, PathsAgree;
  }

  lemma RenderedAlikeIff(cfg: Config, mime: string, body: Bytes, size: string, format: string, stored: Bytes)
    requires ValidCatalog(cfg.catalog) && size in cfg.catalog.sizes
    requires RenderThumbnail(cfg.codec, cfg.catalog, body, Variant(size, NormalizeFormat(format))) == Some(stored)
    ensures
      RenderVariant(cfg.codec, cfg.catalog.sides, body, mime, size, format)
        == Success(Rendered(stored, ContentType(NormalizeFormat(format))))
      <==> PathsAgree(cfg, mime, body, size, format, stored)
  {
    hide TrimSpace, NormalizeFormat, NativeFormat;
  }

  /** For a size without white space around it both paths resize alike, so only the format can differ. */
  lemma TrimmedSizesAgreeIff(cfg: Config, mime: string, body: Bytes, size: string, format: string, stored: Bytes)
    requires ValidCatalog(cfg.catalog) && size in cfg.catalog.sizes && size != "original" && TrimSpace(size) == size
    requires RenderThumbnail(cfg.codec, cfg.catalog, body, Variant(size, NormalizeFormat(format))) == Some(stored)
    ensures PathsAgree(cfg, mime, body, size, format, stored)
      <==> NormalizeFormat(format) == FallbackFormat(mime, format)
  {
    hide TrimSpace, NormalizeFormat, NativeFormat;
    assert size in cfg.catalog.sides;
  }

  predicate OnOffer(c: Catalog, side: Option<int>) {
    side.Some? ==> exists size | size in c.sides :: c.sides[size] == side.value
  }

  /**
   An image of no side of the catalog: which of these sides it was resized to, or that it was not, shows in the
   encoded bytes, and no thumbnail of it is the uploaded file.
   */
  ghost predicate SidesShow(codec: Codec, c: Catalog, body: Bytes) {
    && (forall a, b, f | OnOffer(c, a) && OnOffer(c, b) && RenderAt(codec, body, a, f).Some? ::
          RenderAt(codec, body, a, f) == RenderAt(codec, body, b, f) ==> a == b)
    && (forall a: Option<int>, f | a.Some? && OnOffer(c, a) :: RenderAt(codec, body, a, f) != Some(body))
  }

  /**
   For an image whose sides show, any size the catalog has, with white space around it or not, is rendered alike
   exactly when its trimmed label has the same side and the format is the same.
   */
  lemma SameSideAgreesIff(cfg: Config, mime: string, body: Bytes, size: string, format: string, stored: Bytes)
    requires ValidCatalog(cfg.catalog) && size in cfg.catalog.sizes && SidesShow(cfg.codec, cfg.catalog, body)
    requires RenderThumbnail(cfg.codec, cfg.catalog, body, Variant(size, NormalizeFormat(format))) == Some(stored)
    ensures PathsAgree(cfg, mime, body, size, format, stored)
      <==> (FallbackSide(cfg.catalog, size) == Some(cfg.catalog.sides[size])
        && NormalizeFormat(format) == FallbackFormat(mime, format))
  {
    hide TrimSpace, NormalizeFormat, NativeFormat, FallbackFormat;
    var side := Some(cfg.catalog.sides[size]);
    assert OnOffer(cfg.catalog, side) && OnOffer(cfg.catalog, FallbackSide(cfg.catalog, size));
    assert RenderAt(cfg.codec, body, side, NormalizeFormat(format)) == Some(stored);
  }

  lemma NamesAreTrimmed()
    ensures TrimSpace("") == "" && TrimSpace("original") == "original"
  {
    assert TrimLeft("original") == "original" && TrimRight("original") == "original";
  }

  /** Without a requested format the original is streamed, which is what the fallback path returns for it. */
  lemma StreamedOriginalMatches(cfg: Config, mime: string, body: Bytes, size: string, format: string)
    requires HexDigest(cfg.codec)
    requires size == "" || size == "original"
    requires TrimSpace(format) == ""
    ensures TryStored(cfg.codec, Some(body), Some(body), mime).Some?
    ensures FromOriginal(cfg, mime, Some(body), size, format)
      == Success(TryStored(cfg.codec, Some(body), Some(body), mime).value)
  {
    hide TrimSpace;
    NamesAreTrimmed();
    assert cfg.codec.md5hex(body) != "" && cfg.codec.md5hex(body)[0] != '\"';
  }

  /**
   Read transparency. The row of a live avatar is read in s; the storage calls of the request come later, each
   at its own moment, while every actor goes on. If the request succeeds, it is answered with the very payload,
   bytes, content type, length and ETag, that rendering the uploaded original gives, except in one case: a stored
   thumbnail answers a request that the two paths understand differently, and then the payloads differ. For every
   size without white space around it, this is a matter of the format alone.
   */
  lemma ReadTransparency(cfg: Config, s: State, id: Id, size: string, format: string, calls: Calls)
    requires ValidCatalog(cfg.catalog) && HexDigest(cfg.codec)
    requires Reachable(cfg, s) && id in s.rows && !s.rows[id].deleted
    requires Feasible(cfg, s.rows[id], size, format, calls, s)
    ensures id in s.born
    ensures var a := s.rows[id];
      var r := BuildImagePayload(cfg, a, size, format, calls);
      r.Success? ==>
        (r == FromOriginal(cfg, a.mime, Some(s.born[id].body), size, format)
         <==> (ThumbnailHit(a, size, format, calls) ==>
                 PathsAgree(cfg, a.mime, s.born[id].body, size, format, calls.thumbGet.value)))
  {
    StoredKeyNames(cfg, s, id, size, format);
    hide Reachable, TrimSpace, NormalizeFormat, PathsAgree, RenderVariant, StoredKey, ValidCatalog, HexDigest,
      SeenAt, RenderThumbnail;
    var a := s.rows[id];
    var body := s.born[id].body;
    if ThumbnailHit(a, size, format, calls) {
      var k := StoredKey(a, size, format).value;
      SeenIsGenuine(cfg, s, k, calls.thumbStat);
      SeenIsGenuine(cfg, s, k, calls.thumbGet);
      StoredMatchesRenderIff(cfg, a.mime, body, size, format, calls.thumbGet.value);
    } else if (size == "" || size == "original") && TrimSpace(format) == "" && calls.originalStat.Some?
      && calls.originalGet.Some? {
      SeenIsGenuine(cfg, s, a.key, calls.originalStat);
      SeenIsGenuine(cfg, s, a.key, calls.originalGet);
      StreamedOriginalMatches(cfg, a.mime, body, size, format);
    } else if calls.fallbackGet.Some? {
      SeenIsGenuine(cfg, s, a.key, calls.fallbackGet);
    }
  }

  // ---------- when a read succeeds, and with what ----------

  /** The uploaded file itself is what rendering gives: no format is asked for, and nothing can or need be resized. */
  predicate AsUploaded(cfg: Config, body: Bytes, size: string, format: string) {
    TrimSpace(format) == "" && (FallbackSide(cfg.catalog, size) == None || cfg.codec.decode(body) == None)
  }

  /** The image of the upload at the side and in the format a request means. */
  function RenderMeant(cfg: Config, mime: string, body: Bytes, size: string, format: string): Option<Bytes> {
    RenderAt(cfg.codec, body, FallbackSide(cfg.catalog, size), FallbackFormat(mime, format))
  }

  /** What rendering an upload gives, for every size and format. */
  lemma RenderedFromOriginal(cfg: Config, mime: string, body: Bytes, size: string, format: string)
    ensures var r := FromOriginal(cfg, mime, Some(body), size, format);
      var image := RenderMeant(cfg, mime, body, size, format);
      && (r.Success? <==> AsUploaded(cfg, body, size, format) || image.Some?)
      && (r == Failure(RenderFailed(DecodeFailed)) <==> TrimSpace(format) != "" && cfg.codec.decode(body) == None)
      && (r == Failure(RenderFailed(EncodeFailed)) <==>
            !AsUploaded(cfg, body, size, format) && cfg.codec.decode(body).Some? && image == None)
      && (r.Success? ==>
            var (bytes, contentType) := if AsUploaded(cfg, body, size, format) then (body, mime)
              else (image.value, ContentType(FallbackFormat(mime, format)));
            r.value == Payload(bytes, contentType, |bytes|, "\"" + cfg.codec.md5hex(bytes) + "\""))
  {
    hide TrimSpace, NormalizeFormat, NativeFormat, ContentType;
  }

  /** Both reads of a thumbnail the completed row lists have worked. */
  predicate StoredThumbnail(cfg: Config, a: Avatar, size: string, calls: Calls) {
    && size != "" && size != "original" && a.status == Completed && size in cfg.catalog.sizes
    && calls.thumbStat.Some? && calls.thumbGet.Some?
  }

  /** Both reads of the original have worked, and it was asked for as it is. */
  predicate StoredOriginal(size: string, format: string, calls: Calls) {
    (size == "" || size == "original") && TrimSpace(format) == "" && calls.originalStat.Some?
      && calls.originalGet.Some?
  }

  lemma ThumbnailHitIff(cfg: Config, s: State, id: Id, size: string, format: string, calls: Calls)
    requires Reachable(cfg, s) && id in s.rows
    ensures ThumbnailHit(s.rows[id], size, format, calls) <==> StoredThumbnail(cfg, s.rows[id], size, calls)
  {
    hide Reachable, Inv, Plan, NormalizeFormat;
    ReachableInv(cfg, s);
    RowsNameTheirThumbnails(cfg, s, id);
    if s.rows[id].status == Completed { CompletedRowsListThumbnails(cfg, s, id); }
    var f := NormalizeFormat(format);
    assert f == Jpeg || f == Png || f == Webp;
    assert f in ALL_FORMATS;
  }

  lemma CompletedRowsListThumbnails(cfg: Config, s: State, id: Id)
    requires Inv(cfg, s) && id in s.rows && s.rows[id].status == Completed
    ensures s.rows[id].thumbs.Some?
  {
    assert Sat(RowsClause, cfg, s);
  }

  lemma RenderedAtSide(cfg: Config, body: Bytes, size: string, f: Format)
    ensures RenderThumbnail(cfg.codec, cfg.catalog, body, Variant(size, f))
      == RenderAt(cfg.codec, body, Some(Side(cfg.catalog, size)), f)
  {
  }

  lemma QuotedDigest(codec: Codec, b: Bytes)
    requires HexDigest(codec)
    ensures Quoted(codec.md5hex(b)) == "\"" + codec.md5hex(b) + "\""
  {
    assert codec.md5hex(b) != "" && codec.md5hex(b)[0] != '\"';
  }

  /** Whatever is read of the original is the upload. */
  lemma OriginalReads(cfg: Config, s: State, id: Id, size: string, format: string, calls: Calls)
    requires Reachable(cfg, s) && id in s.rows && Feasible(cfg, s.rows[id], size, format, calls, s)
    ensures id in s.born
    ensures calls.originalStat.Some? ==> calls.originalStat == Some(s.born[id].body)
    ensures calls.originalGet.Some? ==> calls.originalGet == Some(s.born[id].body)
    ensures calls.fallbackGet.Some? ==> calls.fallbackGet == Some(s.born[id].body)
  {
    StoredKeyNames(cfg, s, id, size, format);
    hide Reachable, NormalizeFormat, StoredKey, SeenAt, RenderThumbnail;
    var key := s.rows[id].key;
    if calls.originalStat.Some? { SeenIsGenuine(cfg, s, key, calls.originalStat); }
    if calls.originalGet.Some? { SeenIsGenuine(cfg, s, key, calls.originalGet); }
    if calls.fallbackGet.Some? { SeenIsGenuine(cfg, s, key, calls.fallbackGet); }
  }

  /**
   What a request for the image of a live avatar is answered with, whatever its storage calls find and while every
   actor goes on. It succeeds exactly when it meets a stored thumbnail or the stored original, or else the
   original can be read and rendered; the answer is the render of the upload, or the upload, with its type, length
   and ETag.
   */
  lemma ImageAnswered(cfg: Config, s: State, id: Id, size: string, format: string, calls: Calls)
    requires ValidCatalog(cfg.catalog) && HexDigest(cfg.codec)
    requires Reachable(cfg, s) && id in s.rows && !s.rows[id].deleted
    requires Feasible(cfg, s.rows[id], size, format, calls, s)
    ensures id in s.born
    ensures var a, body := s.rows[id], s.born[id].body;
      var stored := StoredThumbnail(cfg, a, size, calls) || StoredOriginal(size, format, calls);
      var image := RenderMeant(cfg, a.mime, body, size, format);
      var r := BuildImagePayload(cfg, a, size, format, calls);
      && (r.Success? <==>
            stored || (calls.fallbackGet.Some? && (AsUploaded(cfg, body, size, format) || image.Some?)))
      && (r == Failure(ObjectUnavailable) <==> !stored && calls.fallbackGet == None)
      && (r == Failure(RenderFailed(DecodeFailed)) <==>
            !stored && calls.fallbackGet.Some? && TrimSpace(format) != "" && cfg.codec.decode(body) == None)
      && (r == Failure(RenderFailed(EncodeFailed)) <==>
            !stored && calls.fallbackGet.Some? && !AsUploaded(cfg, body, size, format)
              && cfg.codec.decode(body).Some? && image == None)
    ensures var a, body := s.rows[id], s.born[id].body;
      var thumbnail := RenderAt(cfg.codec, body, Some(Side(cfg.catalog, size)), NormalizeFormat(format));
      var image := RenderMeant(cfg, a.mime, body, size, format);
      var r := BuildImagePayload(cfg, a, size, format, calls);
      r.Success? ==>
        && (StoredThumbnail(cfg, a, size, calls) ==>
              thumbnail == Some(r.value.body) && r.value.contentType == ContentType(NormalizeFormat(format)))
        && (StoredOriginal(size, format, calls) ==> r.value.body == body && r.value.contentType == a.mime)
        && (!StoredThumbnail(cfg, a, size, calls) && !StoredOriginal(size, format, calls) ==>
              if AsUploaded(cfg, body, size, format) then r.value.body == body && r.value.contentType == a.mime
              else image == Some(r.value.body) && r.value.contentType == ContentType(FallbackFormat(a.mime, format)))
        && r.value.length == |r.value.body| && r.value.etag == "\"" + cfg.codec.md5hex(r.value.body) + "\""
  {
    hide Reachable, TrimSpace, NormalizeFormat, FallbackFormat, ContentType, StoredKey, ValidCatalog, HexDigest,
      Feasible, RenderVariant, RenderMeant, AsUploaded, RenderAt, RenderThumbnail;
    StoredKeyNames(cfg, s, id, size, format);
    ThumbnailHitIff(cfg, s, id, size, format, calls);
    var a := s.rows[id];
    if ThumbnailHit(a, size, format, calls) {
      HitIsTheRender(cfg, s, id, size, format, calls);
      RenderedAtSide(cfg, s.born[id].body, size, NormalizeFormat(format));
      QuotedDigest(cfg.codec, calls.thumbGet.value);
    } else {
      OriginalReads(cfg, s, id, size, format, calls);
      QuotedDigest(cfg.codec, s.born[id].body);
      RenderedFromOriginal(cfg, a.mime, s.born[id].body, size, format);
    }
  }

  /** A trimmed, nonempty format never meets the exception. */
  lemma TrimmedFormatsAgree(mime: string, format: string)
    requires format != "" && TrimSpace(format) == format
    ensures NormalizeFormat(format) == FallbackFormat(mime, format)
  {
  }

  /** An empty format meets it for every upload that is not a JPEG: the stored hit is JPEG, the fallback is not. */
  lemma EmptyFormatDisagreesIff(mime: string)
    ensures NormalizeFormat("") != FallbackFormat(mime, "") <==> mime == "image/png" || mime == "image/webp"
  {
    assert TrimSpace("") == "";
  }

  /**
   For the requests the API admits, with neither size nor format padded, the exception is a request for a stored
   thumbnail of a PNG or WebP upload that names no format.
   */
  lemma AdmittedReadsAgreeIff(cfg: Config, s: State, id: Id, size: string, format: string, calls: Calls)
    requires ValidCatalog(cfg.catalog) && HexDigest(cfg.codec)
    requires Reachable(cfg, s) && id in s.rows && !s.rows[id].deleted
    requires Feasible(cfg, s.rows[id], size, format, calls, s)
    requires TrimSpace(size) == size && TrimSpace(format) == format
    ensures id in s.born
    ensures var a := s.rows[id];
      var r := BuildImagePayload(cfg, a, size, format, calls);
      r.Success? ==>
        (r == FromOriginal(cfg, a.mime, Some(s.born[id].body), size, format)
         <==> !(ThumbnailHit(a, size, format, calls) && format == "" && a.mime in {"image/png", "image/webp"}))
  {
    hide Reachable, TrimSpace, PathsAgree, ValidCatalog, HexDigest, Feasible, BuildImagePayload, FromOriginal,
      NormalizeFormat, FallbackFormat;
    ReadTransparency(cfg, s, id, size, format, calls);
    var a := s.rows[id];
    if ThumbnailHit(a, size, format, calls) {
      HitIsTheRender(cfg, s, id, size, format, calls);
      TrimmedSizesAgreeIff(cfg, a.mime, s.born[id].body, size, format, calls.thumbGet.value);
      if format == "" { EmptyFormatDisagreesIff(a.mime); } else { TrimmedFormatsAgree(a.mime, format); }
    }
  }

  lemma HitIsTheRender(cfg: Config, s: State, id: Id, size: string, format: string, calls: Calls)
    requires Reachable(cfg, s) && id in s.rows && Feasible(cfg, s.rows[id], size, format, calls, s)
    requires ThumbnailHit(s.rows[id], size, format, calls)
    ensures id in s.born && size in cfg.catalog.sizes && size != "original"
    ensures RenderThumbnail(cfg.codec, cfg.catalog, s.born[id].body, Variant(size, NormalizeFormat(format)))
      == calls.thumbGet == calls.thumbStat
  {
    StoredKeyNames(cfg, s, id, size, format);
    hide Reachable, NormalizeFormat, StoredKey, SeenAt, RenderThumbnail;
    SeenIsGenuine(cfg, s, StoredKey(s.rows[id], size, format).value, calls.thumbGet);
    SeenIsGenuine(cfg, s, StoredKey(s.rows[id], size, format).value, calls.thumbStat);
  }
}
