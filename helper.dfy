/**
 * Response envelopes of the HTTP function: the success envelope carrying an
 * image and the plain-text 400 envelope.
 */
module Helper {
  import opened Prelude

  /** A header value: the success envelope's cache indicator is a boolean, every other header a string. */
  datatype HeaderValue = Text(text: string) | Flag(flag: bool)

  /** A binary body (sent base64-encoded) or a plain-text body. */
  datatype Body = Binary(bytes: seq<byte>) | PlainText(message: string)

  /** An absent `headers`, `body` or `isBase64Encoded` property is `None`. */
  datatype Response = Response(
    statusCode: int,
    headers: Option<map<string, HeaderValue>>,
    body: Option<Body>,
    isBase64Encoded: Option<bool>)

  const OctetStream := "application/octet-stream"
  const ImmutableForAYear := "public, max-age=31536000, immutable"

  /**
   * The success envelope. `image`, `contentType` and `cache` are the
   * optional properties of the argument object; `cache` defaults to false.
   */
  function Ok(image: Option<seq<byte>>, contentType: Option<string>, cache: Option<bool>): (r: Response)
    ensures r.statusCode == 200 && r.isBase64Encoded == Some(true)
    ensures r.body == if image.Some? then Some(Binary(image.value)) else None
    ensures r.headers.Some?
    ensures r.headers.value.Keys == {"Content-Type", "Vary", "Cache-Control", "X-Image-Cache"}
    ensures contentType.Some? && contentType.value != "" ==>
      r.headers.value["Content-Type"] == Text(contentType.value)
    ensures contentType.None? || contentType.value == "" ==>
      r.headers.value["Content-Type"] == Text(OctetStream)
    ensures r.headers.value["Vary"] == Text("Accept")
    ensures r.headers.value["Cache-Control"] == Text(ImmutableForAYear)
    ensures r.headers.value["X-Image-Cache"] == Flag(cache == Some(true))
  {
    Response(
      200,
      Some(map[
        "Content-Type" := Text(OrDefault(contentType, OctetStream)),
        "Vary" := Text("Accept"),
        "Cache-Control" := Text(ImmutableForAYear),
        "X-Image-Cache" := Flag(if cache.Some? then cache.value else false)]),
      if image.Some? then Some(Binary(image.value)) else None,
      Some(true))
  }

  /** The client-error envelope: status 400 with the message as a plain-text body. */
  function Error(message: string): (r: Response)
    ensures r.statusCode == 400
    ensures r.headers == Some(map["Content-Type" := Text("text/plain")])
    ensures r.body == Some(PlainText(message))
    ensures r.isBase64Encoded.None?
  {
    Response(400, Some(map["Content-Type" := Text("text/plain")]), Some(PlainText(message)), None)
  }

  /** The two envelopes can always be told apart, and the error envelope keeps its message. */
  lemma EnvelopesDistinct(image: Option<seq<byte>>, contentType: Option<string>, cache: Option<bool>, message: string)
    ensures Ok(image, contentType, cache) != Error(message)
    ensures Ok(image, contentType, cache).headers.value["Content-Type"].text != ""
    ensures forall m :: Error(m) == Error(message) ==> m == message
  {
  }
}
