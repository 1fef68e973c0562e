/**
 * Properties of the image optimizer's request pipeline, stated over the
 * functions of module Handler (which the methods of `ImageService` are
 * proved to follow).
 */
module HandlerLemmas {
  import opened Prelude
  import opened Types
  import opened Helper
  import opened Handler

  // ---------------------------------------------------------------------
  // Validation

  /** Validated options are within the schema's bounds; out-of-range or missing numbers are refused as parameter errors. */
  lemma ValidationBounds(p: Platform, cfg: Config, ev: Event)
    ensures ValidateOptions(p, cfg, ev).Success? ==>
      var o := ValidateOptions(p, cfg, ev).value;
      MinWidth as real <= o.w <= MaxWidth as real && MinQuality as real <= o.q <= MaxQuality as real
    ensures (ev.query.Some? &&
               (!InRange(Coerce(p, ev.query.value, "w"), MinWidth, MaxWidth)
                || !InRange(Coerce(p, ev.query.value, "q"), MinQuality, MaxQuality)))
      ==> ValidateOptions(p, cfg, ev).Failure? && StartsWith(ValidateOptions(p, cfg, ev).error, ParamsPrefix)
  {
  }

  /** A quality below 50 is refused, and the message names the `q` field and its lower bound. */
  lemma QualityBelowMinimumReported(p: Platform, cfg: Config, ev: Event, x: real)
    requires ev.query.Some? && Coerce(p, ev.query.value, "q") == Some(x) && x < MinQuality as real
    ensures ValidateOptions(p, cfg, ev).Failure?
    ensures StartsWith(ValidateOptions(p, cfg, ev).error, ParamsPrefix)
    ensures Contains(ValidateOptions(p, cfg, ev).error, IssueText(FieldIssue("q", TooSmall(MinQuality))))
  {
    var fields := ev.query.value;
    var wIssues := NumberIssues(Coerce(p, fields, "w"), "w", MinWidth, MaxWidth);
    var qIssues := NumberIssues(Some(x), "q", MinQuality, MaxQuality);
    var issues := ParseParams(p, ev.query).error;
    assert qIssues[0] == FieldIssue("q", TooSmall(MinQuality));
    assert issues[|wIssues|] == qIssues[0];
    var needle := IssueText(FieldIssue("q", TooSmall(MinQuality)));
    var rendered := RenderIssues(issues);
    var i := JoinMentionsEveryPart(IssueTexts(issues), "; ", |wIssues|);
    OccursShift(ParamsPrefix, rendered, needle, i);
    var message := ValidateOptions(p, cfg, ev).error;
    assert message == ParamsPrefix + rendered;
    ContainsIffOccurs(message, needle);
  }

  /** A query lacking `w` or `q` coerces that parameter to NaN and is refused as a parameter error. */
  lemma MissingNumberRefused(p: Platform, cfg: Config, ev: Event)
    requires ev.query.Some? && ("w" !in ev.query.value || "q" !in ev.query.value)
    ensures ValidateOptions(p, cfg, ev).Failure?
    ensures StartsWith(ValidateOptions(p, cfg, ev).error, ParamsPrefix)
  {
    var fields := ev.query.value;
    if "w" !in fields {
      assert Coerce(p, fields, "w").None?;
    } else {
      assert Coerce(p, fields, "q").None?;
    }
  }

  /** Resolution is idempotent; whatever does not start with `http` (a `/` path, but also an
   *  `ftp:` or `data:` URL the schema admits) is glued onto the default host. */
  lemma ResolveUrlIdempotent(defaultDomain: string, url: string)
    ensures ResolveUrl(defaultDomain, ResolveUrl(defaultDomain, url)) == ResolveUrl(defaultDomain, url)
    ensures !StartsWith(url, "http") ==> ResolveUrl(defaultDomain, url) == "https://" + defaultDomain + url
    ensures StartsWith(url, "/") ==> ResolveUrl(defaultDomain, url) != url
  {
    if StartsWith(url, "/") {
      assert url[0] == '/' && "http"[0] == 'h';
    }
  }

  /** Past the schema and URL parsing, the host check rejects exactly when neither the host nor `*` is a substring of the allowed hosts. */
  lemma HostCheck(p: Platform, cfg: Config, ev: Event, u: Url)
    requires ParseParams(p, ev.query).Success?
    requires p.parseUrl(ResolveUrl(cfg.defaultDomain, ParseParams(p, ev.query).value.url)) == Some(u)
    ensures ValidateOptions(p, cfg, ev) == Failure(HostPrefix + u.hostname) <==>
      !Contains(cfg.allowedHosts, u.hostname) && !Contains(cfg.allowedHosts, "*")
    ensures ValidateOptions(p, cfg, ev).Success? <==>
      Contains(cfg.allowedHosts, u.hostname) || Contains(cfg.allowedHosts, "*")
  {
  }

  /** Any host that occurs anywhere inside the allowed-hosts string passes the check, so does the empty host, and so does every host once `*` occurs. */
  lemma SubstringHostAdmitted(allowedHosts: string, hostname: string, i: int)
    requires OccursAt(allowedHosts, hostname, i) || hostname == "" || Contains(allowedHosts, "*")
    ensures HostAllowed(allowedHosts, hostname)
  {
    if OccursAt(allowedHosts, hostname, i) {
      ContainsIffOccurs(allowedHosts, hostname);
    } else if hostname == "" {
      EverythingContainsEmpty(allowedHosts);
    }
  }

  /** The check is not list membership: a fragment of a listed host is admitted. The allowed
   *  hosts are `cdn.example.com,img.example.org`, written split around the fragment. */
  lemma FragmentOfListedHostAdmitted(allowed: string)
    requires allowed == "cdn." + "example.co" + "m,img.example.org"
    ensures HostAllowed(allowed, "example.co")
  {
    assert allowed[4..14] == "example.co";
    SubstringHostAdmitted(allowed, "example.co", 4);
  }

  // ---------------------------------------------------------------------
  // Encoding selection

  /** A GIF source is never wider than 1024 or than requested; any other source keeps the requested width. */
  lemma GifWidthClamped(quality: real, width: real, sourceFormat: string, accept: string)
    ensures var e := SelectEncoding(quality, width, sourceFormat, accept);
      (sourceFormat == ".gif" ==>
         e.width <= GifMaxWidth && e.width <= width && (e.width == width || e.width == GifMaxWidth))
      && (sourceFormat != ".gif" ==> e.width == width)
  {
  }

  /** AVIF wins whenever accepted, even with WebP, and its quality is 15 less, floored at 50. */
  lemma AvifQuality(quality: real, width: real, sourceFormat: string, accept: string)
    requires Contains(accept, "image/avif")
    ensures var e := SelectEncoding(quality, width, sourceFormat, accept);
      e.Avif? && e.avifOptions.effort == 3 && e.avifOptions.chromaSubsampling == "4:2:0"
      && e.avifOptions.quality >= 50.0
      && (quality >= 50.0 ==> e.avifOptions.quality <= quality)
      && (quality >= 65.0 ==> e.avifOptions.quality == quality - 15.0)
      && (quality <= 65.0 ==> e.avifOptions.quality == 50.0)
  {
  }

  /** Without AVIF: WebP at the requested quality, else GIF for a GIF source, else mozjpeg JPEG. */
  lemma FallbackOrder(quality: real, width: real, sourceFormat: string, accept: string)
    requires !Contains(accept, "image/avif")
    ensures var e := SelectEncoding(quality, width, sourceFormat, accept);
      (Contains(accept, "image/webp") ==> e == Webp(e.width, WebpOptions(quality)))
      && (!Contains(accept, "image/webp") && sourceFormat == ".gif" ==> e == Gif(e.width, GifOptions(10)))
      && (!Contains(accept, "image/webp") && sourceFormat != ".gif" ==> e == Jpg(width, JpegOptions(quality, true)))
  {
  }

  /** Without an `Accept` header (or with an empty one) neither AVIF nor WebP is chosen. */
  lemma MissingAcceptFallsBack(p: Platform, cfg: Config, ev: Event)
    requires ValidateOptions(p, cfg, ev).Success?
    requires "accept" !in ev.headers || ev.headers["accept"] == ""
    ensures var e := ValidateOptions(p, cfg, ev).value.encoding;
      e.Jpg? || e.Gif?
  {
    assert AcceptOf(ev) == "";
    assert !StartsWith("", "image/avif") && !StartsWith("", "image/webp");
  }

  /** Validated options carry an encoding whose width and quality lie within the schema's bounds. */
  lemma ValidatedEncodingInBounds(p: Platform, cfg: Config, ev: Event)
    requires ValidateOptions(p, cfg, ev).Success?
    ensures var e := ValidateOptions(p, cfg, ev).value.encoding;
      MinWidth as real <= e.width <= MaxWidth as real
      && (e.Avif? ==> MinQuality as real <= e.avifOptions.quality <= MaxQuality as real)
      && (e.Webp? ==> MinQuality as real <= e.webpOptions.quality <= MaxQuality as real)
      && (e.Jpg? ==> MinQuality as real <= e.jpegOptions.quality <= MaxQuality as real)
  {
  }

  // ---------------------------------------------------------------------
  // Transform

  /** Distinct formats get distinct content types. */
  lemma ContentTypeOneToOne(a: Encoding, b: Encoding)
    ensures ContentTypeFor(a) == ContentTypeFor(b) <==> Format(a) == Format(b)
  {
  }

  // ---------------------------------------------------------------------
  // The pipeline

  /** On a cache hit the stored object is served and nothing is fetched, transformed or written. */
  lemma CacheHitShortCircuits(p: Platform, cfg: Config, bucket: map<Key, StoredObject>, ev: Event, io: Io, options: Options)
    requires ValidateOptions(p, cfg, ev) == Success(options)
    requires !io.cacheReadFails && p.cacheKey(options) in bucket
    ensures var hit := bucket[p.cacheKey(options)];
      Optimize(p, cfg, bucket, ev, io) == Step(Returned(Ok(Some(hit.body), Some(hit.contentType), None)), bucket)
  {
  }

  /** A failed cache read behaves as if the key were absent. */
  lemma CacheReadFailureIsMiss(p: Platform, cfg: Config, bucket: map<Key, StoredObject>, ev: Event, io: Io, options: Options)
    requires ValidateOptions(p, cfg, ev) == Success(options)
    requires io.cacheReadFails
    ensures Optimize(p, cfg, bucket, ev, io) == AfterMiss(p, bucket, options, io)
    ensures Optimize(p, cfg, bucket, ev, io).outcome ==
      Optimize(p, cfg, bucket - {p.cacheKey(options)}, ev, io.(cacheReadFails := false)).outcome
  {
  }

  /** A source that answers with a non-2xx status fails the request with that status and stores nothing. */
  lemma FetchFailureIsError(p: Platform, cfg: Config, bucket: map<Key, StoredObject>, ev: Event, io: Io, options: Options)
    requires ValidateOptions(p, cfg, ev) == Success(options)
    requires Lookup(bucket, p.cacheKey(options), io.cacheReadFails).None?
    requires io.fetched.Fetched? && !FetchOk(io.fetched.status)
    ensures Optimize(p, cfg, bucket, ev, io) == Step(Threw(ErrorThrown(FetchFailedMessage(io.fetched.status))), bucket)
    ensures Handle(p, cfg, bucket, ev, io) == Served(Error(FetchFailedMessage(io.fetched.status)), bucket)
  {
  }

  /** An output over 5,000,000 bytes is a 400 and nothing is stored, whatever the original's size. */
  lemma OversizedOutputRejected(p: Platform, cfg: Config, bucket: map<Key, StoredObject>, ev: Event, io: Io, options: Options)
    requires ValidateOptions(p, cfg, ev) == Success(options)
    requires Lookup(bucket, p.cacheKey(options), io.cacheReadFails).None?
    requires io.fetched.Fetched? && FetchOk(io.fetched.status)
    requires ProcessImage(p, io.fetched.body, options.encoding).Success?
    requires |ProcessImage(p, io.fetched.body, options.encoding).value.buffer| > MaxOutputBytes
    ensures var n := |ProcessImage(p, io.fetched.body, options.encoding).value.buffer|;
      Optimize(p, cfg, bucket, ev, io) == Step(Returned(Error(ExcessiveSizeMessage(n))), bucket)
  {
  }

  /** An output larger than the original: the original bytes and content type are stored and served instead. */
  lemma LargerOutputServesOriginal(p: Platform, cfg: Config, bucket: map<Key, StoredObject>, ev: Event, io: Io, options: Options)
    requires ValidateOptions(p, cfg, ev) == Success(options)
    requires Lookup(bucket, p.cacheKey(options), io.cacheReadFails).None?
    requires io.fetched.Fetched? && FetchOk(io.fetched.status) && io.putFailure.None?
    requires ProcessImage(p, io.fetched.body, options.encoding).Success?
    requires var n := |ProcessImage(p, io.fetched.body, options.encoding).value.buffer|;
      |io.fetched.body| < n <= MaxOutputBytes
    ensures var original := io.fetched.body;
      var ct := OrDefault(io.fetched.contentType, OctetStream);
      Optimize(p, cfg, bucket, ev, io) ==
        Step(Returned(Ok(Some(original), Some(ct), None)),
             bucket[p.cacheKey(options) := StoredObject(original, ct, options.url)])
  {
  }

  /** Otherwise the transformed bytes are stored and served with the format's content type. */
  lemma SmallerOutputServed(p: Platform, cfg: Config, bucket: map<Key, StoredObject>, ev: Event, io: Io, options: Options)
    requires ValidateOptions(p, cfg, ev) == Success(options)
    requires Lookup(bucket, p.cacheKey(options), io.cacheReadFails).None?
    requires io.fetched.Fetched? && FetchOk(io.fetched.status) && io.putFailure.None?
    requires ProcessImage(p, io.fetched.body, options.encoding).Success?
    requires var n := |ProcessImage(p, io.fetched.body, options.encoding).value.buffer|;
      n <= MaxOutputBytes && n <= |io.fetched.body|
    ensures var out := ProcessImage(p, io.fetched.body, options.encoding).value.buffer;
      var ct := ContentTypeFor(options.encoding);
      Optimize(p, cfg, bucket, ev, io) ==
        Step(Returned(Ok(Some(out), Some(ct), None)),
             bucket[p.cacheKey(options) := StoredObject(out, ct, options.url)])
  {
  }

  /** A served image is never larger than the ceiling, nor, when freshly made, than the fetched original. */
  lemma ServedSizeBounded(p: Platform, cfg: Config, bucket: map<Key, StoredObject>, ev: Event, io: Io, options: Options)
    requires ValidateOptions(p, cfg, ev) == Success(options)
    requires Lookup(bucket, p.cacheKey(options), io.cacheReadFails).None?
    requires io.fetched.Fetched?
    requires Optimize(p, cfg, bucket, ev, io).outcome.Returned?
    requires Optimize(p, cfg, bucket, ev, io).outcome.response.statusCode == 200
    ensures var body := Optimize(p, cfg, bucket, ev, io).outcome.response.body;
      body.Some? && body.value.Binary?
      && |body.value.bytes| <= |io.fetched.body| && |body.value.bytes| <= MaxOutputBytes
  {
  }

  /** The only object a request may write is the one under the key it looked up, and it is within the ceiling. */
  lemma WritesOnlyUnderLookupKey(p: Platform, cfg: Config, bucket: map<Key, StoredObject>, ev: Event, io: Io)
    ensures var after := Optimize(p, cfg, bucket, ev, io).bucket;
      after != bucket ==>
        ValidateOptions(p, cfg, ev).Success?
        && var options := ValidateOptions(p, cfg, ev).value;
           var key := p.cacheKey(options);
           key in after && after == bucket[key := after[key]]
           && after[key].source == options.url && |after[key].body| <= MaxOutputBytes
  {
  }

  /** Repeating a request that succeeded gives the identical response from the cache, and writes nothing. */
  lemma RepeatServedFromCache(p: Platform, cfg: Config, bucket: map<Key, StoredObject>, ev: Event, io1: Io, io2: Io)
    requires Optimize(p, cfg, bucket, ev, io1).outcome.Returned?
    requires Optimize(p, cfg, bucket, ev, io1).outcome.response.statusCode == 200
    requires !io2.cacheReadFails
    ensures var first := Optimize(p, cfg, bucket, ev, io1);
      Optimize(p, cfg, first.bucket, ev, io2) == first
  {
  }

  /** `handler` answers 200, 400 or 500; 500 only for a thrown non-`Error`; every 200 is base64 and reports no cache hit. */
  lemma HandlerStatuses(p: Platform, cfg: Config, bucket: map<Key, StoredObject>, ev: Event, io: Io)
    ensures var r := Handle(p, cfg, bucket, ev, io).response;
      (r.statusCode == 200 || r.statusCode == 400 || r.statusCode == 500)
      && (r.statusCode == 500 <==> Optimize(p, cfg, bucket, ev, io).outcome == Threw(OtherThrown))
      && (r.statusCode == 200 ==>
            r.isBase64Encoded == Some(true) && r.headers.Some? && r.headers.value["X-Image-Cache"] == Flag(false))
    ensures Handle(p, cfg, bucket, ev, io).bucket == Optimize(p, cfg, bucket, ev, io).bucket
  {
  }

  /** Every validation failure is a 400 carrying the validation message, and stores nothing. */
  lemma ValidationFailureIs400(p: Platform, cfg: Config, bucket: map<Key, StoredObject>, ev: Event, io: Io)
    requires ValidateOptions(p, cfg, ev).Failure?
    ensures Handle(p, cfg, bucket, ev, io) == Served(Error(ValidateOptions(p, cfg, ev).error), bucket)
  {
  }
}
