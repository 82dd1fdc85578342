/** Image decoding, resizing and encoding, as deterministic functions the rest of the model is generic in. */
module Rendering {
  import opened Wrappers
  import opened Text
  import opened Keys
  import opened Catalogs

  newtype byte = x: int | 0 <= x < 256

  type Bytes = seq<byte>

  datatype Image = Image(width: nat, height: nat, pixels: seq<nat>)

  /** The image and hashing libraries. */
  datatype Codec = Codec(
    decode: Bytes -> Option<Image>,
    fill: (Image, int) -> Image,
    encode: (Image, Format) -> Option<Bytes>,
    md5hex: Bytes -> string)

  /** One thumbnail as the worker makes it: fill the decoded original, then encode. */
  function RenderThumbnail(codec: Codec, catalog: Catalog, original: Bytes, v: Variant): Option<Bytes> {
    match codec.decode(original)
    case None => None
    case Some(img) => codec.encode(codec.fill(img, Side(catalog, v.size)), v.format)
  }

  /** normalizeThumbnailFormat. */
  function NormalizeFormat(format: string): Format {
    if format == "png" then Png else if format == "webp" then Webp else Jpeg
  }

  datatype Rendered = Rendered(body: Bytes, contentType: string)

  datatype RenderError = DecodeFailed | EncodeFailed

  function Encoded(codec: Codec, img: Image, f: Format): Result<Rendered, RenderError> {
    match codec.encode(img, f)
    case None => Failure(EncodeFailed)
    case Some(b) => Success(Rendered(b, ContentType(f)))
  }

  /** The format an original without a requested format is re-encoded to after a resize. */
  function NativeFormat(mime: string): Format {
    if mime == "image/png" then Png else if mime == "image/webp" then Webp else Jpeg
  }

  /** renderAvatarVariant. */
  function RenderVariant(codec: Codec, sides: map<string, int>, data: Bytes, mime: string, rawSize: string,
                         rawFormat: string)
    : Result<Rendered, RenderError>
  {
    var format := TrimSpace(rawFormat);
    var size := TrimSpace(rawSize);
    var needResize := size != "" && size != "original" && size in sides;
    if format == "" && !needResize then Success(Rendered(data, mime))
    else match codec.decode(data)
      case None => if format != "" then Failure(DecodeFailed) else Success(Rendered(data, mime))
      case Some(decoded) =>
        var img := if needResize then codec.fill(decoded, sides[size]) else decoded;
        Encoded(codec, img, if format != "" then NormalizeFormat(format) else NativeFormat(mime))
  }

  /** The tables of formats agree: names, content types, file extensions and the types of uploads. */
  lemma FormatTables(f: Format)
    ensures NormalizeFormat(FormatName(f)) == f
    ensures ContentType(f) == "image/" + FormatName(f)
    ensures NativeFormat(ContentType(f)) == f
    ensures ExtForMime(ContentType(f)) == "." + FileExt(f)
    ensures FileExt(f) == if f == Jpeg then "jpg" else FormatName(f)
  {
  }

  /** Every other name is read as JPEG, and every other type of upload is encoded as JPEG and has no extension. */
  lemma OtherNames(name: string)
    ensures (forall f :: name != FormatName(f)) ==> NormalizeFormat(name) == Jpeg
    ensures (forall f :: name != ContentType(f)) ==> NativeFormat(name) == Jpeg && ExtForMime(name) == ""
  {
    assert name == FormatName(Png) || name == FormatName(Webp) || NormalizeFormat(name) == Jpeg;
    assert name == ContentType(Png) || name == ContentType(Webp) || NativeFormat(name) == Jpeg;
    assert name == ContentType(Jpeg) || name == ContentType(Png) || name == ContentType(Webp) || ExtForMime(name) == "";
  }
}
