/** One-shot screenshots: the capture options, the frame hash, and the server's negotiated answer. */
module Screens {
  import opened Results

  const MAX_LONG_EDGE := 2576
  const DEFAULT_JPEG_QUALITY := 80

  type Bytes = seq<int>

  datatype ImageFormat = Png | Jpeg

  function ParseFormat(format: Option<string>): Result<ImageFormat, string> {
    match format
    case None => Ok(Png)
    case Some(f) => if f == "png" then Ok(Png) else if f == "jpeg" then Ok(Jpeg) else Err("unsupported image format")
  }

  datatype Opts = Opts(maxLongEdge: Option<int>, format: ImageFormat, quality: int)

  function ClampLongEdge(m: Option<int>): Option<int> {
    match m case None => None case Some(v) => Some(if v <= MAX_LONG_EDGE then v else MAX_LONG_EDGE)
  }

  /** Raw pixels, already scaled down. */
  datatype Raw = Raw(rgb: Bytes, w: int, h: int)

  /** What rides along with a frame: the coordinate map and the pointer. */
  datatype Meta = Meta(display: Option<int>, pointer: Option<(int, int)>)

  /** The pixel hash and the image encoder: functions of the pixels alone. */
  datatype Codec = Codec(hash: Raw -> string, encode: (Raw, Opts) -> Result<Bytes, string>)

  /** What the backend yields for one capture: raw pixels, or an encoded image, or an error. */
  datatype Screen = Pixels(raw: Raw, meta: Meta) | Encoded(image: Result<Bytes, string>, meta: Meta) | NoCapture(error: string)

  datatype Shot =
    | Image(data: Bytes, hash: Option<string>, meta: Meta)
    | NotModified(frameHash: string, meta: Meta)
    | ShotError(error: string)

  /** `screenshot_reply`: an offered hash that matches saves the encoding; only raw pixels are hashed. */
  function Screenshot(codec: Codec, opts: Opts, offered: Option<string>, screen: Screen): Shot {
    match screen
    case Pixels(raw, meta) =>
      var hash := codec.hash(raw);
      if offered == Some(hash) then NotModified(hash, meta)
      else (
        match codec.encode(raw, opts.(maxLongEdge := None))
        case Ok(data) => Image(data, Some(hash), meta)
        case Err(e) => ShotError(e))
    case Encoded(Ok(data), meta) => Image(data, None, meta)
    case Encoded(Err(e), _) => ShotError(e)
    case NoCapture(e) => ShotError(e)
  }

  /** Not modified is answered exactly when the offered hash is the current frame's, whatever the codec. */
  lemma NotModifiedIff(codec: Codec, opts: Opts, offered: Option<string>, screen: Screen)
    ensures Screenshot(codec, opts, offered, screen).NotModified? <==>
              screen.Pixels? && offered == Some(codec.hash(screen.raw))
    ensures !screen.Pixels? ==>
              Screenshot(codec, opts, offered, screen) == Screenshot(codec, opts, None, screen)
  {
  }

  /**
   The hash that came with a full picture is good for every later request, whatever its codec options:
   it is answered `not_modified` exactly when the pixels hash alike, and with a full picture otherwise.
   */
  lemma OfferedHashDecides(codec: Codec, opts: Opts, first: Screen, opts': Opts, second: Screen)
    requires Screenshot(codec, opts, None, first).Image? && Screenshot(codec, opts, None, first).hash.Some?
    requires second.Pixels? && codec.encode(second.raw, opts'.(maxLongEdge := None)).Ok?
    ensures first.Pixels?
    ensures var answer := Screenshot(codec, opts', Screenshot(codec, opts, None, first).hash, second);
            if codec.hash(second.raw) == codec.hash(first.raw) then answer == NotModified(codec.hash(first.raw), second.meta)
            else answer == Screenshot(codec, opts', None, second) && answer.Image? && answer.hash == Some(codec.hash(second.raw))
  {
  }
}
