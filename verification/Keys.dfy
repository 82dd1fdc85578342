/** The object-store key scheme: what each key names, and the string it is spelled as. */
module Keys {
  import opened Text

  datatype Format = Jpeg | Png | Webp

  const ALL_FORMATS: set<Format> := {Jpeg, Png, Webp}

  function FormatName(f: Format): string {
    match f case Jpeg => "jpeg" case Png => "png" case Webp => "webp"
  }

  function FileExt(f: Format): string {
    match f case Jpeg => "jpg" case Png => "png" case Webp => "webp"
  }

  function ContentType(f: Format): string {
    match f case Jpeg => "image/jpeg" case Png => "image/png" case Webp => "image/webp"
  }

  /** extForMIME: the empty string for every other type. */
  function ExtForMime(mime: string): string {
    if mime == "image/jpeg" then ".jpg"
    else if mime == "image/png" then ".png"
    else if mime == "image/webp" then ".webp"
    else ""
  }

  /** What an object is stored for. */
  datatype ObjectKey =
    | Original(segment: string, id: string, ext: string)
    | Thumbnail(id: string, size: string, format: Format)
    | PlaceholderOriginal(ext: string)
    | PlaceholderThumbnail(size: string, format: Format)
  {
    predicate Avatar?() { Original? || Thumbnail? }
  }

  /** sanitizePathSegment. */
  function SanitizePathSegment(user: string): string {
    ReplaceSlashes(TrimSpace(user))
  }

  /** originalAvatarObjectKey applied to a sanitised user id. */
  function OriginalKeyFor(user: string, id: string, mime: string): (k: ObjectKey)
    ensures k.Original? && k.id == id
  {
    Original(SanitizePathSegment(user), id, ExtForMime(mime))
  }

  function KeyString(k: ObjectKey): string {
    match k
    case Original(segment, id, ext) => "originals/" + segment + "/" + id + ext
    case Thumbnail(id, size, format) => "thumbnails/" + id + "/" + size + "." + FileExt(format)
    case PlaceholderOriginal(ext) => if ext == "" then "" else "placeholders/original." + ext
    case PlaceholderThumbnail(size, format) => "placeholders/" + size + "." + FileExt(format)
  }

  /** The object names the service's buckets hold. */
  lemma Spelling(segment: string, id: string, ext: string, size: string)
    ensures KeyString(Original(segment, id, ext)) == "originals/" + segment + "/" + id + ext
    ensures KeyString(Thumbnail(id, size, Jpeg)) == "thumbnails/" + id + "/" + size + ".jpg"
    ensures KeyString(Thumbnail(id, size, Png)) == "thumbnails/" + id + "/" + size + ".png"
    ensures KeyString(Thumbnail(id, size, Webp)) == "thumbnails/" + id + "/" + size + ".webp"
    ensures ext != "" ==> KeyString(PlaceholderOriginal(ext)) == "placeholders/original." + ext
    ensures KeyString(PlaceholderOriginal("")) == ""
    ensures KeyString(PlaceholderThumbnail(size, Jpeg)) == "placeholders/" + size + ".jpg"
    ensures KeyString(PlaceholderThumbnail(size, Png)) == "placeholders/" + size + ".png"
    ensures KeyString(PlaceholderThumbnail(size, Webp)) == "placeholders/" + size + ".webp"
  {
    assert forall f :: "placeholders/" + size + "." + FileExt(f) == "placeholders/" + size + ("." + FileExt(f));
    assert forall f ::
      "thumbnails/" + id + "/" + size + "." + FileExt(f) == "thumbnails/" + id + "/" + size + ("." + FileExt(f));
  }

  /** The text form of a UUID: 36 characters, none of them a slash. */
  predicate UuidText(id: string) {
    |id| == 36 && '/' !in id
  }

  /** Keys the code can build: any user id, any label, any image type it accepts. */
  predicate WellFormed(k: ObjectKey) {
    match k
    case Original(segment, id, ext) => '/' !in segment && UuidText(id)
    case Thumbnail(id, size, format) => UuidText(id)
    case PlaceholderOriginal(ext) => ext in {"jpg", "png", "webp"}
    case PlaceholderThumbnail(size, format) => true
  }

  /** The one overlap of the scheme: a catalog label that is literally "original". */
  predicate PlaceholderClash(a: ObjectKey, b: ObjectKey) {
    || (a.PlaceholderOriginal? && b.PlaceholderThumbnail? && b.size == "original" && FileExt(b.format) == a.ext)
    || (b.PlaceholderOriginal? && a.PlaceholderThumbnail? && a.size == "original" && FileExt(a.format) == b.ext)
  }

  lemma FirstCharacter(k: ObjectKey)
    requires WellFormed(k)
    ensures KeyString(k) != ""
    ensures KeyString(k)[0] == match k case Original(_, _, _) => 'o' case Thumbnail(_, _, _) => 't' case _ => 'p'
  {
    match k
    case Original(segment, id, ext) =>
      assert KeyString(k) == "originals/" + (segment + "/" + id + ext);
    case Thumbnail(id, size, format) =>
      assert KeyString(k) == "thumbnails/" + (id + "/" + size + "." + FileExt(format));
    case PlaceholderOriginal(ext) =>
    case PlaceholderThumbnail(size, format) =>
      assert KeyString(k) == "placeholders/" + (size + "." + FileExt(format));
  }

  lemma SamePrefix(p: string, a: string, b: string)
    requires p + a == p + b
    ensures a == b
  {
    assert a == (p + a)[|p|..] == (p + b)[|p|..] == b;
  }

  lemma OriginalInjective(a: ObjectKey, b: ObjectKey)
    requires a.Original? && b.Original? && WellFormed(a) && WellFormed(b)
    requires KeyString(a) == KeyString(b)
    ensures a == b
  {
    var at, bt := a.id + a.ext, b.id + b.ext;
    assert KeyString(a) == "originals/" + (a.segment + "/" + at);
    assert KeyString(b) == "originals/" + (b.segment + "/" + bt);
    SamePrefix("originals/", a.segment + "/" + at, b.segment + "/" + bt);
    SplitFirst(a.segment, at, b.segment, bt, '/');
    assert a.id == at[..36] == bt[..36] == b.id;
    SamePrefix(a.id, a.ext, b.ext);
  }

  lemma SizeAndFormat(a: string, f: Format, b: string, g: Format)
    requires a + "." + FileExt(f) == b + "." + FileExt(g)
    ensures a == b && f == g
  {
    SplitLast(a, FileExt(f), b, FileExt(g), '.');
  }

  lemma ThumbnailInjective(a: ObjectKey, b: ObjectKey)
    requires a.Thumbnail? && b.Thumbnail? && WellFormed(a) && WellFormed(b)
    requires KeyString(a) == KeyString(b)
    ensures a == b
  {
    hide FileExt;
    var at, bt := a.size + "." + FileExt(a.format), b.size + "." + FileExt(b.format);
    assert KeyString(a) == "thumbnails/" + (a.id + "/" + at);
    assert KeyString(b) == "thumbnails/" + (b.id + "/" + bt);
    SamePrefix("thumbnails/", a.id + "/" + at, b.id + "/" + bt);
    SplitFirst(a.id, at, b.id, bt, '/');
    SizeAndFormat(a.size, a.format, b.size, b.format);
  }

  function PlaceholderStem(k: ObjectKey): string
    requires k.PlaceholderOriginal? || k.PlaceholderThumbnail?
  {
    if k.PlaceholderOriginal? then "original" else k.size
  }

  function PlaceholderExt(k: ObjectKey): string
    requires k.PlaceholderOriginal? || k.PlaceholderThumbnail?
  {
    if k.PlaceholderOriginal? then k.ext else FileExt(k.format)
  }

  lemma PlaceholderSpelling(k: ObjectKey)
    requires WellFormed(k) && !k.Avatar?()
    ensures KeyString(k) == "placeholders/" + (PlaceholderStem(k) + "." + PlaceholderExt(k))
    ensures '.' !in PlaceholderExt(k)
  {
    if k.PlaceholderOriginal? {
      assert "placeholders/original." == "placeholders/" + ("original" + ".");
    }
  }

  lemma PlaceholderKeysEqualIff(a: ObjectKey, b: ObjectKey)
    requires WellFormed(a) && WellFormed(b) && !a.Avatar?() && !b.Avatar?()
    ensures KeyString(a) == KeyString(b)
      <==> PlaceholderStem(a) == PlaceholderStem(b) && PlaceholderExt(a) == PlaceholderExt(b)
  {
    PlaceholderSpelling(a);
    PlaceholderSpelling(b);
    var at := PlaceholderStem(a) + "." + PlaceholderExt(a);
    var bt := PlaceholderStem(b) + "." + PlaceholderExt(b);
    if KeyString(a) == KeyString(b) {
      SamePrefix("placeholders/", at, bt);
      SplitLast(PlaceholderStem(a), PlaceholderExt(a), PlaceholderStem(b), PlaceholderExt(b), '.');
    }
  }

  /** Two keys the code builds share a string exactly when they are the same key, but for the clash above. */
  lemma KeyStringsEqualIff(a: ObjectKey, b: ObjectKey)
    requires WellFormed(a) && WellFormed(b)
    ensures KeyString(a) == KeyString(b) <==> a == b || PlaceholderClash(a, b)
  {
    FirstCharacter(a);
    FirstCharacter(b);
    if a.Original? && b.Original? && KeyString(a) == KeyString(b) {
      OriginalInjective(a, b);
    } else if a.Thumbnail? && b.Thumbnail? && KeyString(a) == KeyString(b) {
      ThumbnailInjective(a, b);
    } else if !a.Avatar?() && !b.Avatar?() {
      PlaceholderKeysEqualIff(a, b);
    }
  }

  /** Whatever the user ids, objects of different avatars never share a string. */
  lemma AvatarsNeverShareObjects(a: ObjectKey, b: ObjectKey)
    requires WellFormed(a) && WellFormed(b) && a.Avatar?()
    requires KeyString(a) == KeyString(b)
    ensures b.Avatar?() && a.id == b.id
  {
    KeyStringsEqualIff(a, b);
  }

  lemma SegmentAt(user: string)
    ensures |SanitizePathSegment(user)| == |TrimSpace(user)|
    ensures forall i | 0 <= i < |TrimSpace(user)| ::
      SanitizePathSegment(user)[i] == Underscored(TrimSpace(user)[i])
    ensures '/' !in SanitizePathSegment(user)
  {
    hide TrimSpace, ReplaceSlashes;
    ReplacedAt(TrimSpace(user));
  }

  /**
   Sanitising forgets which user it was: two users share a segment exactly when their trimmed ids agree after each '/'
   is read as '_'. Only the avatar's id then keeps their originals apart.
   */
  lemma SegmentsEqualIff(u: string, v: string)
    ensures SanitizePathSegment(u) == SanitizePathSegment(v)
      <==> (|TrimSpace(u)| == |TrimSpace(v)|
        && forall i | 0 <= i < |TrimSpace(u)| :: Underscored(TrimSpace(u)[i]) == Underscored(TrimSpace(v)[i]))
  {
    hide TrimSpace, SanitizePathSegment;
    SegmentAt(u);
    SegmentAt(v);
  }

  /** A user id is its own segment exactly when it has no slash and no white space around it. */
  lemma SegmentIsTheUserIff(u: string)
    ensures SanitizePathSegment(u) == u <==> TrimSpace(u) == u && '/' !in u
  {
    hide TrimSpace, SanitizePathSegment;
    TrimShortens(u);
    SegmentAt(u);
  }

  /** The segment is empty exactly for an id of white space. */
  lemma SegmentEmptyIff(u: string)
    ensures SanitizePathSegment(u) == "" <==> forall c | c in u :: IsSpace(c)
  {
    hide TrimSpace, SanitizePathSegment, IsSpace;
    BlankIff(u);
    SegmentAt(u);
  }
}
