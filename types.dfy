/**
 * The output encodings of the image service: a closed union of four
 * formats, each with a target width and the codec options for its format.
 */
module Types {

  /** The options the service sets for the AVIF encoder. */
  datatype AvifOptions = AvifOptions(chromaSubsampling: string, effort: int, quality: real)

  /** The options the service sets for the WebP encoder. */
  datatype WebpOptions = WebpOptions(quality: real)

  /** The options the service sets for the JPEG encoder. */
  datatype JpegOptions = JpegOptions(quality: real, mozjpeg: bool)

  /** The options the service sets for the GIF encoder. */
  datatype GifOptions = GifOptions(effort: int)

  /**
   * `Avif | Webp | Jpg | Gif`. Every variant has the `width` of the common
   * base interface; the constructor is the `format` discriminant and the
   * second field is the format-specific `options` payload.
   */
  datatype Encoding =
    | Avif(width: real, avifOptions: AvifOptions)
    | Webp(width: real, webpOptions: WebpOptions)
    | Jpg(width: real, jpegOptions: JpegOptions)
    | Gif(width: real, gifOptions: GifOptions)

  /** The literal `format` tag of a variant. */
  function Format(e: Encoding): string {
    match e
    case Avif(_, _) => "avif"
    case Webp(_, _) => "webp"
    case Jpg(_, _) => "jpg"
    case Gif(_, _) => "gif"
  }

  /** The four tags are distinct, so the tag tells which variant is active. */
  lemma FormatDiscriminates(a: Encoding, b: Encoding)
    ensures Format(a) == Format(b) <==>
      (a.Avif? && b.Avif?) || (a.Webp? && b.Webp?) || (a.Jpg? && b.Jpg?) || (a.Gif? && b.Gif?)
  {
  }
}
