/**
 * The request pipeline of the image optimizer: parameter validation and URL
 * resolution, output-encoding selection, the format-to-content-type mapping
 * of the transform, the cache/fetch/transform/size-guard/store sequence and
 * the mapping of thrown errors to responses.
 *
 * The collaborators the pipeline consumes (number coercion, URL parsing,
 * `extname`, the cache-key digest and the image codec) are given as the
 * functions of a `Platform`; the outcomes of the I/O a request performs
 * (the cache read, the source fetch, the cache write) are given as an `Io`.
 */
module Handler {
  import opened Prelude
  import opened Types
  import opened Helper

  /** An object key of the cache bucket (the hex digest of the options). */
  type Key = string

  /** A parsed URL: its serialised form and its host name. */
  datatype Url = Url(href: string, hostname: string)

  /** The resize the transform asks for. */
  datatype Resize = Resize(width: real, withoutEnlargement: bool)

  /** One run of the codec: decode `input`, resize, then encode as `encoding` says. */
  datatype CodecJob = CodecJob(input: seq<byte>, animated: bool, encoding: Encoding, resize: Resize)

  /** What a `throw` carries: an `Error` object with its message, or any other value. */
  datatype Thrown = ErrorThrown(message: string) | OtherThrown

  datatype CodecOutcome = Encoded(buffer: seq<byte>) | CodecThrew(thrown: Thrown)

  datatype Platform = Platform(
    toNumber: string -> Option<real>,   // `Number(s)`; None when the result is NaN
    parseUrl: string -> Option<Url>,    // `new URL(s)`; None when it throws
    extname: string -> string,          // `extname` of node:path
    cacheKey: Options -> Key,           // SHA-256 hex digest of the JSON of the options
    codec: CodecJob -> CodecOutcome)    // the native image library

  /** The process configuration: the host that relative paths resolve against and the allowed-hosts string. */
  datatype Config = Config(defaultDomain: string, allowedHosts: string)

  /** The inbound event: its query-string parameters (absent when there is no query) and its headers. */
  datatype Event = Event(query: Option<map<string, string>>, headers: map<string, string>)

  /** The parameters that passed the schema. */
  datatype Params = Params(w: real, q: real, url: string)

  /** The validated options; the whole record is the input of the cache key. */
  datatype Options = Options(w: real, q: real, url: string, parsedUrl: Url, encoding: Encoding)

  /** Why one field failed the schema. */
  datatype Problem = ExpectedNumber | TooSmall(minimum: nat) | TooBig(maximum: nat) | NoMatchingForm

  datatype Issue = ExpectedObject | FieldIssue(field: string, problem: Problem)

  /** An object of the cache bucket: body, content type and the `source` metadata. */
  datatype StoredObject = StoredObject(body: seq<byte>, contentType: string, source: string)

  /** What a successful cache read gives back. */
  datatype CachedImage = CachedImage(contentType: string, image: seq<byte>)

  /** The outcome of `fetch`: it threw, or a response with status, body and `Content-Type` header. */
  datatype FetchOutcome =
    | FetchThrew(thrown: Thrown)
    | Fetched(status: nat, body: seq<byte>, contentType: Option<string>)

  /** The outcomes of the I/O one request performs. */
  datatype Io = Io(cacheReadFails: bool, fetched: FetchOutcome, putFailure: Option<Thrown>)

  /** How `optimizeImage` ends: it returns a response or it throws. */
  datatype Outcome = Returned(response: Response) | Threw(thrown: Thrown)

  /** The outcome of `optimizeImage` together with the bucket afterwards. */
  datatype Step = Step(outcome: Outcome, bucket: map<Key, StoredObject>)

  /** The response of `handler` together with the bucket afterwards. */
  datatype Served = Served(response: Response, bucket: map<Key, StoredObject>)

  const MinWidth: nat := 16
  const MaxWidth: nat := 3840
  const MinQuality: nat := 50
  const MaxQuality: nat := 100
  const GifMaxWidth: real := 1024.0
  const MaxOutputBytes: nat := 5_000_000
  const ParamsPrefix := "Invalid parameters: "
  const HostPrefix := "Invalid host: "
  const InvalidUrlMessage := "Invalid URL"
  const InternalServerError := Response(500, None, None, None)

  // ---------------------------------------------------------------------
  // Validation

  /** `z.coerce.number()` applied to one query parameter; a missing one coerces to NaN. */
  function Coerce(p: Platform, query: map<string, string>, name: string): (v: Option<real>)
    ensures name !in query ==> v.None?
    ensures name in query ==> v == p.toNumber(query[name])
  {
    if name in query then p.toNumber(query[name]) else None
  }

  predicate InRange(v: Option<real>, lo: nat, hi: nat) {
    v.Some? && lo as real <= v.value <= hi as real
  }

  /** The `url` field matches one branch of the union: a full URL, or a path starting with `/`. */
  predicate UrlAccepted(p: Platform, query: map<string, string>) {
    "url" in query && (p.parseUrl(query["url"]).Some? || StartsWith(query["url"], "/"))
  }

  function NumberIssues(v: Option<real>, name: string, lo: nat, hi: nat): (issues: seq<Issue>)
    ensures issues == [] <==> InRange(v, lo, hi)
  {
    match v
    case None => [FieldIssue(name, ExpectedNumber)]
    case Some(x) =>
      (if x < lo as real then [FieldIssue(name, TooSmall(lo))] else [])
      + (if x > hi as real then [FieldIssue(name, TooBig(hi))] else [])
  }

  /** The schema `{ w: 16..3840, q: 50..100, url: full URL or "/..." }`; every failing field is reported. */
  function ParseParams(p: Platform, query: Option<map<string, string>>): (r: Result<Params, seq<Issue>>)
    ensures r.Success? <==>
      query.Some? && InRange(Coerce(p, query.value, "w"), MinWidth, MaxWidth)
      && InRange(Coerce(p, query.value, "q"), MinQuality, MaxQuality) && UrlAccepted(p, query.value)
    ensures r.Success? ==>
      Coerce(p, query.value, "w") == Some(r.value.w) && Coerce(p, query.value, "q") == Some(r.value.q)
      && query.value["url"] == r.value.url
    ensures r.Failure? ==> |r.error| > 0
  {
    match query
    case None => Failure([ExpectedObject])
    case Some(fields) =>
      var w := Coerce(p, fields, "w");
      var q := Coerce(p, fields, "q");
      var issues := NumberIssues(w, "w", MinWidth, MaxWidth) + NumberIssues(q, "q", MinQuality, MaxQuality)
        + (if UrlAccepted(p, fields) then [] else [FieldIssue("url", NoMatchingForm)]);
      if issues == [] then Success(Params(w.value, q.value, fields["url"])) else Failure(issues)
  }

  function ProblemText(pr: Problem): string {
    match pr
    case ExpectedNumber => "Expected number, received nan"
    case TooSmall(m) => "Number must be greater than or equal to " + Decimal(m)
    case TooBig(m) => "Number must be less than or equal to " + Decimal(m)
    case NoMatchingForm => "Invalid input"
  }

  function IssueText(i: Issue): string {
    match i
    case ExpectedObject => "Expected object"
    case FieldIssue(f, pr) => f + ": " + ProblemText(pr)
  }

  function IssueTexts(issues: seq<Issue>): (texts: seq<string>)
    ensures |texts| == |issues|
    ensures forall k :: 0 <= k < |issues| ==> texts[k] == IssueText(issues[k])
    decreases |issues|
  {
    if issues == [] then [] else [IssueText(issues[0])] + IssueTexts(issues[1..])
  }

  /** The text after the parameters prefix: every issue, separated by "; ". */
  function RenderIssues(issues: seq<Issue>): string {
    Join(IssueTexts(issues), "; ")
  }

  /** A path is resolved against the default host; anything starting with `http` is kept. */
  function ResolveUrl(defaultDomain: string, url: string): (r: string)
    ensures StartsWith(r, "http") && EndsWith(r, url)
    ensures StartsWith(url, "http") <==> r == url
  {
    if StartsWith(url, "http") then url else "https://" + defaultDomain + url
  }

  /** The substring test of the allowed-hosts string, for the host and for the wildcard. */
  predicate HostAllowed(allowedHosts: string, hostname: string)
    ensures HostAllowed(allowedHosts, hostname) <==>
      (exists i :: OccursAt(allowedHosts, hostname, i)) || (exists i :: OccursAt(allowedHosts, "*", i))
  {
    ContainsIffOccurs(allowedHosts, hostname);
    ContainsIffOccurs(allowedHosts, "*");
    Contains(allowedHosts, hostname) || Contains(allowedHosts, "*")
  }

  /** `event.headers["accept"] || ""` */
  function AcceptOf(ev: Event): (accept: string)
    ensures "accept" in ev.headers && ev.headers["accept"] != "" ==> accept == ev.headers["accept"]
    ensures "accept" !in ev.headers || ev.headers["accept"] == "" ==> accept == ""
  {
    OrDefault(if "accept" in ev.headers then Some(ev.headers["accept"]) else None, "")
  }

  /** `validateOptions`: the error is the message of the `Error` it throws. */
  function ValidateOptions(p: Platform, cfg: Config, ev: Event): (r: Result<Options, string>)
    ensures ParseParams(p, ev.query).Failure? ==>
      r == Failure(ParamsPrefix + RenderIssues(ParseParams(p, ev.query).error))
    ensures r.Success? ==>
      ParseParams(p, ev.query) == Success(Params(r.value.w, r.value.q, r.value.url))
      && p.parseUrl(ResolveUrl(cfg.defaultDomain, r.value.url)) == Some(r.value.parsedUrl)
      && HostAllowed(cfg.allowedHosts, r.value.parsedUrl.hostname)
      && r.value.encoding == SelectEncoding(r.value.q, r.value.w, p.extname(r.value.url), AcceptOf(ev))
    ensures ParseParams(p, ev.query).Success? ==>
      var url := ParseParams(p, ev.query).value.url;
      var parsed := p.parseUrl(ResolveUrl(cfg.defaultDomain, url));
      (parsed.None? ==> r == Failure(InvalidUrlMessage))
      && (parsed.Some? && !HostAllowed(cfg.allowedHosts, parsed.value.hostname) ==>
            r == Failure(HostPrefix + parsed.value.hostname))
      && (parsed.Some? && HostAllowed(cfg.allowedHosts, parsed.value.hostname) ==> r.Success?)
  {
    match ParseParams(p, ev.query)
    case Failure(issues) => Failure(ParamsPrefix + RenderIssues(issues))
    case Success(params) =>
      match p.parseUrl(ResolveUrl(cfg.defaultDomain, params.url))
      case None => Failure(InvalidUrlMessage)
      case Some(imageUrl) =>
        if !HostAllowed(cfg.allowedHosts, imageUrl.hostname) then
          Failure(HostPrefix + imageUrl.hostname)
        else
          Success(Options(params.w, params.q, params.url, imageUrl,
            SelectEncoding(params.q, params.w, p.extname(params.url), AcceptOf(ev))))
  }

  // ---------------------------------------------------------------------
  // Encoding selection

  function Min(a: real, b: real): real { if a <= b then a else b }
  function Max(a: real, b: real): real { if a >= b then a else b }

  /** `selectEncoding`: the first matching rule wins. */
  function SelectEncoding(quality: real, width: real, sourceFormat: string, accept: string): (e: Encoding)
    ensures sourceFormat == ".gif" ==> e.width == Min(width, GifMaxWidth)
    ensures sourceFormat != ".gif" ==> e.width == width
    ensures e.Avif? <==> Contains(accept, "image/avif")
    ensures e.Webp? <==> !Contains(accept, "image/avif") && Contains(accept, "image/webp")
    ensures e.Gif? <==>
      !Contains(accept, "image/avif") && !Contains(accept, "image/webp") && sourceFormat == ".gif"
    ensures e.Avif? ==> e.avifOptions == AvifOptions("4:2:0", 3, Max(quality - 15.0, 50.0))
    ensures e.Webp? ==> e.webpOptions == WebpOptions(quality)
    ensures e.Gif? ==> e.gifOptions == GifOptions(10)
    ensures e.Jpg? ==> e.jpegOptions == JpegOptions(quality, true)
  {
    var w := if sourceFormat == ".gif" then Min(width, GifMaxWidth) else width;
    if Contains(accept, "image/avif") then
      Avif(w, AvifOptions("4:2:0", 3, Max(quality - 15.0, 50.0)))
    else if Contains(accept, "image/webp") then
      Webp(w, WebpOptions(quality))
    else if sourceFormat == ".gif" then
      Gif(w, GifOptions(10))
    else
      Jpg(w, JpegOptions(quality, true))
  }

  // ---------------------------------------------------------------------
  // Transform

  /** The content type `processImage` reports for each output format. */
  function ContentTypeFor(e: Encoding): (ct: string)
    ensures ct == "image/" + (if e.Jpg? then "jpeg" else Format(e))
  {
    match e
    case Gif(_, _) => "image/gif"
    case Avif(_, _) => "image/avif"
    case Webp(_, _) => "image/webp"
    case Jpg(_, _) => "image/jpeg"
  }

  datatype Processed = Processed(contentType: string, buffer: seq<byte>)

  /** The codec run `processImage` asks for: animated decode, resize to the width without enlarging. */
  function JobFor(data: seq<byte>, e: Encoding): (job: CodecJob)
    ensures job.input == data && job.animated && job.encoding == e
    ensures job.resize.width == e.width && job.resize.withoutEnlargement
  {
    CodecJob(data, true, e, Resize(e.width, true))
  }

  /** `processImage`: run the codec; on success pair its bytes with the format's content type. */
  function ProcessImage(p: Platform, data: seq<byte>, e: Encoding): (r: Result<Processed, Thrown>)
    ensures p.codec(JobFor(data, e)).Encoded? <==> r.Success?
    ensures r.Success? ==> r.value == Processed(ContentTypeFor(e), p.codec(JobFor(data, e)).buffer)
    ensures r.Failure? ==> r.error == p.codec(JobFor(data, e)).thrown
  {
    match p.codec(JobFor(data, e))
    case Encoded(buffer) => Success(Processed(ContentTypeFor(e), buffer))
    case CodecThrew(t) => Failure(t)
  }

  // ---------------------------------------------------------------------
  // The pipeline as functions of the bucket before the request

  /** `getCachedImage`: a read that fails for any reason is a miss. */
  function Lookup(bucket: map<Key, StoredObject>, key: Key, readFails: bool): (hit: Option<CachedImage>)
    ensures hit.Some? <==> !readFails && key in bucket
    ensures hit.Some? ==> hit.value.image == bucket[key].body && hit.value.contentType == bucket[key].contentType
  {
    if !readFails && key in bucket then Some(CachedImage(bucket[key].contentType, bucket[key].body)) else None
  }

  /** `response.ok` of the Fetch standard: a status in the range 200 to 299. */
  predicate FetchOk(status: nat) { 200 <= status <= 299 }

  function FetchFailedMessage(status: nat): string {
    "Failed to fetch image, status code: " + Decimal(status)
  }

  function ExcessiveSizeMessage(size: nat): string {
    "Excessive output size: " + Decimal(size) + " bytes"
  }

  /** `cacheImage` followed by the success envelope; a failed write throws and stores nothing. */
  function Store(bucket: map<Key, StoredObject>, key: Key, data: seq<byte>, contentType: string,
                 source: string, putFailure: Option<Thrown>): (r: Step)
    ensures putFailure.Some? ==> r == Step(Threw(putFailure.value), bucket)
    ensures putFailure.None? ==>
      r.outcome == Returned(Ok(Some(data), Some(contentType), None))
      && r.bucket.Keys == bucket.Keys + {key}
      && r.bucket[key] == StoredObject(data, contentType, source)
      && forall k :: k in bucket && k != key ==> r.bucket[k] == bucket[k]
  {
    match putFailure
    case Some(t) => Step(Threw(t), bucket)
    case None => Step(Returned(Ok(Some(data), Some(contentType), None)), bucket[key := StoredObject(data, contentType, source)])
  }

  /** The part of `optimizeImage` after a cache miss: fetch, transform, size guard, store. */
  function AfterMiss(p: Platform, bucket: map<Key, StoredObject>, options: Options, io: Io): (r: Step)
    ensures io.fetched.FetchThrew? ==> r == Step(Threw(io.fetched.thrown), bucket)
    ensures io.fetched.Fetched? && !FetchOk(io.fetched.status) ==>
      r == Step(Threw(ErrorThrown(FetchFailedMessage(io.fetched.status))), bucket)
    ensures r.outcome.Returned? ==> r.outcome.response.statusCode == 200 || r.outcome.response.statusCode == 400
    ensures r.bucket == bucket
      || (r.outcome.Returned? && r.outcome.response.statusCode == 200
          && p.cacheKey(options) in r.bucket
          && r.bucket == bucket[p.cacheKey(options) := r.bucket[p.cacheKey(options)]]
          && r.bucket[p.cacheKey(options)].source == options.url
          && |r.bucket[p.cacheKey(options)].body| <= MaxOutputBytes
          && |r.bucket[p.cacheKey(options)].body| <= |io.fetched.body|)
  {
    var key := p.cacheKey(options);
    match io.fetched
    case FetchThrew(t) => Step(Threw(t), bucket)
    case Fetched(status, imageData, header) =>
      if !FetchOk(status) then Step(Threw(ErrorThrown(FetchFailedMessage(status))), bucket)
      else
        var originalContentType := OrDefault(header, OctetStream);
        match ProcessImage(p, imageData, options.encoding)
        case Failure(t) => Step(Threw(t), bucket)
        case Success(out) =>
          if |out.buffer| > MaxOutputBytes then
            Step(Returned(Error(ExcessiveSizeMessage(|out.buffer|))), bucket)
          else if |out.buffer| > |imageData| then
            Store(bucket, key, imageData, originalContentType, options.url, io.putFailure)
          else
            Store(bucket, key, out.buffer, out.contentType, options.url, io.putFailure)
  }

  /** `optimizeImage` */
  function Optimize(p: Platform, cfg: Config, bucket: map<Key, StoredObject>, ev: Event, io: Io): (r: Step)
    ensures ValidateOptions(p, cfg, ev).Failure? ==>
      r == Step(Threw(ErrorThrown(ValidateOptions(p, cfg, ev).error)), bucket)
    ensures ValidateOptions(p, cfg, ev).Success? ==>
      var options := ValidateOptions(p, cfg, ev).value;
      var hit := Lookup(bucket, p.cacheKey(options), io.cacheReadFails);
      (hit.Some? ==> r == Step(Returned(Ok(Some(hit.value.image), Some(hit.value.contentType), None)), bucket))
      && (hit.None? ==> r == AfterMiss(p, bucket, options, io))
    ensures r.bucket == bucket
      || (ValidateOptions(p, cfg, ev).Success?
          && var key := p.cacheKey(ValidateOptions(p, cfg, ev).value);
          key in r.bucket && r.bucket == bucket[key := r.bucket[key]])
  {
    match ValidateOptions(p, cfg, ev)
    case Failure(message) => Step(Threw(ErrorThrown(message)), bucket)
    case Success(options) =>
      match Lookup(bucket, p.cacheKey(options), io.cacheReadFails)
      case Some(hit) => Step(Returned(Ok(Some(hit.image), Some(hit.contentType), None)), bucket)
      case None => AfterMiss(p, bucket, options, io)
  }

  /** The `catch` of `handler`: an `Error` becomes a 400 with its message, anything else a bare 500. */
  function HandlerResponse(o: Outcome): (r: Response)
    ensures o.Returned? ==> r == o.response
    ensures o.Threw? && o.thrown.ErrorThrown? ==>
      r.statusCode == 400 && r.body == Some(PlainText(o.thrown.message))
    ensures o.Threw? && o.thrown.OtherThrown? ==>
      r.statusCode == 500 && r.headers.None? && r.body.None? && r.isBase64Encoded.None?
  {
    match o
    case Returned(response) => response
    case Threw(ErrorThrown(message)) => Error(message)
    case Threw(OtherThrown) => InternalServerError
  }

  /** `handler` */
  function Handle(p: Platform, cfg: Config, bucket: map<Key, StoredObject>, ev: Event, io: Io): (r: Served)
    ensures r.bucket == Optimize(p, cfg, bucket, ev, io).bucket
    ensures r.response == HandlerResponse(Optimize(p, cfg, bucket, ev, io).outcome)
    ensures r.response.statusCode == 500 <==> Optimize(p, cfg, bucket, ev, io).outcome == Threw(OtherThrown)
  {
    var step := Optimize(p, cfg, bucket, ev, io);
    Served(HandlerResponse(step.outcome), step.bucket)
  }

  /** No object in the bucket is larger than the output ceiling. */
  ghost predicate WithinCeiling(bucket: map<Key, StoredObject>) {
    forall k :: k in bucket ==> |bucket[k].body| <= MaxOutputBytes
  }

  // ---------------------------------------------------------------------
  // The service: the bucket is the state that one request reads and writes

  class ImageService {
    const platform: Platform
    const config: Config
    var bucket: map<Key, StoredObject>

    /** Every stored object is within the output ceiling. */
    ghost predicate StoredWithinCeiling()
      reads this
    {
      WithinCeiling(bucket)
    }

    constructor (platform: Platform, config: Config, bucket: map<Key, StoredObject>)
      ensures this.platform == platform && this.config == config && this.bucket == bucket
    {
      this.platform := platform;
      this.config := config;
      this.bucket := bucket;
    }

    /** `getCachedImage`: the object under the options' key, unless the read fails or there is none. */
    method GetCachedImage(options: Options, readFails: bool) returns (hit: Option<CachedImage>)
      ensures hit.Some? <==> !readFails && platform.cacheKey(options) in bucket
      ensures hit.Some? ==>
        hit.value.image == bucket[platform.cacheKey(options)].body
        && hit.value.contentType == bucket[platform.cacheKey(options)].contentType
      ensures hit == Lookup(bucket, platform.cacheKey(options), readFails)
    {
      var key := platform.cacheKey(options);
      if readFails || key !in bucket {
        return None;
      }
      var obj := bucket[key];
      hit := Some(CachedImage(obj.contentType, obj.body));
    }

    /** `cacheImage`: put the object under the options' key, with the source URL as metadata. */
    method CacheImage(data: seq<byte>, contentType: string, options: Options, putFailure: Option<Thrown>)
      returns (failure: Option<Thrown>)
      modifies this
      ensures failure == putFailure
      ensures putFailure.Some? ==> bucket == old(bucket)
      ensures putFailure.None? ==>
        bucket == old(bucket)[platform.cacheKey(options) := StoredObject(data, contentType, options.url)]
    {
      failure := putFailure;
      if putFailure.None? {
        bucket := bucket[platform.cacheKey(options) := StoredObject(data, contentType, options.url)];
      }
    }

    /** `unmodifiedImage`: store and serve the original bytes with the original content type. */
    method UnmodifiedImage(imageData: seq<byte>, contentType: string, options: Options, putFailure: Option<Thrown>)
      returns (o: Outcome)
      modifies this
      ensures Step(o, bucket) ==
        Store(old(bucket), platform.cacheKey(options), imageData, contentType, options.url, putFailure)
    {
      var failure := CacheImage(imageData, contentType, options, putFailure);
      if failure.Some? {
        return Threw(failure.value);
      }
      o := Returned(Ok(Some(imageData), Some(contentType), None));
    }

    /** `optimizeImage` */
    method OptimizeImage(ev: Event, io: Io) returns (o: Outcome)
      modifies this
      ensures Step(o, bucket) == Optimize(platform, config, old(bucket), ev, io)
      ensures old(StoredWithinCeiling()) ==> StoredWithinCeiling()
    {
      StepKeepsCeiling(platform, config, bucket, ev, io);
      var validation := ValidateOptions(platform, config, ev);
      if validation.Failure? {
        return Threw(ErrorThrown(validation.error));
      }
      var options := validation.value;

      var existingImage := GetCachedImage(options, io.cacheReadFails);
      if existingImage.Some? {
        return Returned(Ok(Some(existingImage.value.image), Some(existingImage.value.contentType), None));
      }

      if io.fetched.FetchThrew? {
        return Threw(io.fetched.thrown);
      }
      var response := io.fetched;
      if !FetchOk(response.status) {
        return Threw(ErrorThrown(FetchFailedMessage(response.status)));
      }
      var imageData := response.body;
      var originalContentType := OrDefault(response.contentType, OctetStream);

      var processed := ProcessImage(platform, imageData, options.encoding);
      if processed.Failure? {
        return Threw(processed.error);
      }
      var contentType, buffer := processed.value.contentType, processed.value.buffer;

      // Outputs over the ceiling are refused
      if |buffer| > MaxOutputBytes {
        return Returned(Error(ExcessiveSizeMessage(|buffer|)));
      }

      // An output larger than the original is replaced by the original
      if |buffer| > |imageData| {
        o := UnmodifiedImage(imageData, originalContentType, options, io.putFailure);
        return;
      }

      var failure := CacheImage(buffer, contentType, options, io.putFailure);
      if failure.Some? {
        return Threw(failure.value);
      }
      o := Returned(Ok(Some(buffer), Some(contentType), None));
    }

    /** `handler`: the pipeline with every throw turned into a response. */
    method Handler(ev: Event, io: Io) returns (r: Response)
      modifies this
      ensures Served(r, bucket) == Handle(platform, config, old(bucket), ev, io)
      ensures old(StoredWithinCeiling()) ==> StoredWithinCeiling()
    {
      var o := OptimizeImage(ev, io);
      r := HandlerResponse(o);
    }
  }

  /** Every object a request writes is within the output ceiling. */
  lemma StepKeepsCeiling(p: Platform, cfg: Config, bucket: map<Key, StoredObject>, ev: Event, io: Io)
    ensures WithinCeiling(bucket) ==> WithinCeiling(Optimize(p, cfg, bucket, ev, io).bucket)
  {
  }
}
