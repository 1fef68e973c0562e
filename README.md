# Image optimizer request pipeline in Dafny

A model of the core of an on-demand image optimizer that runs as an HTTP function. A request carries the query
parameters `w` (width), `q` (quality) and `url` (the source image), plus an `Accept` header. The
service does these steps in order:

1. It validates the parameters and resolves a relative path against the default host.
2. It checks the source host against the allowed-hosts setting.
3. It selects an output encoding (AVIF, WebP, GIF or JPEG) from the `Accept` header and the
   source's extension.
4. It looks up the result in a cache bucket under a key derived from the full options.
5. On a miss, it fetches the source, re-encodes it and applies a size guard.
6. It refuses a transformed image over 5,000,000 bytes. Otherwise it stores and serves the
   transformed image, or the original when the transformed one is strictly larger.

Every thrown error becomes a response.

Modules, one per source file plus two:

- `Prelude`: the JavaScript runtime behaviour the code relies on. It has bytes, optional values, `startsWith`,
  `includes` (substring containment), the `||` default for strings, and the decimal text of a
  number. It also has `Join`, which the code does not use: the model joins its own issue texts
  with it (`RenderIssues`) in place of zod's JSON error message.
- `Types` (`src/types.ts`): the closed `Encoding` union. Each variant has a `width` and its own
  options payload.
- `Helper` (`src/helper.ts`): the success envelope `Ok` and the 400 envelope `Error`.
- `Handler` (`src/handler.ts`): these parts:
  - validation: `ParseParams` is the schema and `ValidateOptions` is `validateOptions`;
  - `SelectEncoding`;
  - the transform request and content-type mapping: `JobFor` and `ProcessImage`;
  - the whole pipeline as pure functions of the bucket before the request: `Optimize` and `Handle`;
  - the class `ImageService`. It holds the bucket as a `map` field. Its methods `GetCachedImage`,
    `CacheImage`, `UnmodifiedImage`, `OptimizeImage` and `Handler` follow the source step by
    step. `GetCachedImage`, `UnmodifiedImage`, `OptimizeImage` and `Handler` are proved equal to
    the pure functions `Lookup`, `Store`, `Optimize` and `Handle`. `CacheImage` is specified
    directly by the map update it makes.
- `HandlerLemmas`: the properties of the pipeline, proved over those functions.

The collaborators are given as functions in a `Platform` value:

- `Number(...)` coercion;
- `new URL(...)`;
- `extname`;
- the SHA-256 cache key;
- the image codec.

The I/O outcomes of one request are given as an `Io` value: whether the cache read fails, what
`fetch` returned, and whether the cache write fails.

Modelling choices:

- `w` and `q` are `real`, because `z.coerce.number()` yields any number, not only integers.
- A NaN from coercion is `None`, and so is a missing parameter.
- zod's `.url()` check succeeds when `new URL(s)` does. So the model uses one `parseUrl`
  function both for that check and for the later `new URL(...)`. A failure there is the
  `TypeError` "Invalid URL".
- `ALLOWED_HOSTS` is one string (`src/env.ts:5`). The host check is therefore substring
  containment, not list membership. `FragmentOfListedHostAdmitted` shows the consequence: a
  fragment of a listed host is admitted.
- Errors raised by the codec, the store client or `fetch` are `Error` objects, so `handler` turns
  them into 400s with their message (src/handler.ts:51-53). Only a thrown value that is not an
  `Error` gives a 500 (src/handler.ts:56).
- `response.ok` of `fetch` is modelled as the Fetch standard defines it: a status from 200 to 299.

## Model

| member | source | states |
|---|---|---|
| `Prelude.Contains` | src/handler.ts:107-109 | `includes` holds whenever the string starts with the needle, and only when the needle is no longer than the string; its full meaning is `ContainsIffOccurs` |
| `Prelude.ContainsIffOccurs` | src/handler.ts:107-109 | `includes` is true exactly when the needle occurs at some index of the string |
| `Prelude.OrDefault` | src/handler.ts:75-76 | the `or` default of a string is the value when it is present and non-empty, and the fallback otherwise |
| `Prelude.DecimalRoundTrip` | src/handler.ts:71 | the status and size text in messages is a non-empty digit string, with no leading zero, that reads back as the number |
| `Prelude.JoinMentionsEveryPart` | src/handler.ts:97-100 | every part occurs in the joined text, at a position the lemma returns |
| `Types.FormatDiscriminates` | src/types.ts:3-27 | the four `format` tags are distinct, so the tag determines the active variant |
| `Helper.Ok` | src/helper.ts:6-22 | the result has status 200, is base64, and its body is the image; it has exactly four headers: `Content-Type` (the given type, or `application/octet-stream` when absent or empty), `Vary: Accept`, the one-year immutable `Cache-Control`, and `X-Image-Cache` equal to `cache` (false by default) |
| `Helper.Error` | src/helper.ts:25-34 | the result has status 400, only the header `Content-Type: text/plain`, and the message as its body |
| `Helper.EnvelopesDistinct` | src/helper.ts:11-34 | a success envelope never equals an error envelope; its content type is never empty; the error envelope determines its message |
| `HandlerLemmas.MissingNumberRefused` | src/handler.ts:28-29 | a query without `w` or without `q` coerces that parameter to NaN and is refused with a message starting `"Invalid parameters: "` |
| `Handler.NumberIssues` | src/handler.ts:28-29 | a coerced number produces no issue exactly when it is present and inside the bounds |
| `Handler.ParseParams` | src/handler.ts:27-34 | the schema accepts exactly when `w` is in [16, 3840], `q` is in [50, 100], and `url` parses as a URL or starts with `/`; its values are the coerced parameters; a rejection lists at least one issue |
| `Handler.IssueTexts` | src/handler.ts:99 | there is one text per issue, in the same order |
| `Handler.ResolveUrl` | src/handler.ts:102-105 | the resolved URL starts with `http` and ends with the given `url`; it equals `url` exactly when `url` starts with `http`; the exact prefixed form is stated by `ResolveUrlIdempotent` |
| `Handler.HostAllowed` | src/handler.ts:107-110 | the host passes exactly when it occurs at some index of the allowed-hosts string, or `*` does |
| `HandlerLemmas.MissingAcceptFallsBack` | src/handler.ts:122 | with no `accept` header, or an empty one, the encoding of validated options is JPEG or GIF, never AVIF or WebP |
| `Handler.ValidateOptions` | src/handler.ts:96-125 | a schema failure gives `"Invalid parameters: "` followed by the issues; an unparsable URL gives "Invalid URL"; a disallowed host gives `"Invalid host: " + hostname`; on success the options hold the schema values, the parsed resolved URL, an allowed host, and the encoding `selectEncoding` picks from `extname(url)` and the `Accept` header (or `""`) |
| `Handler.SelectEncoding` | src/handler.ts:127-158 | the width is `min(w, 1024)` for `.gif` and `w` otherwise; AVIF is chosen exactly when `image/avif` is accepted, WebP exactly when `image/webp` is accepted and AVIF is not, GIF exactly when neither is and the source is `.gif`, and JPEG otherwise; each variant carries the fixed options of its rule |
| `Handler.ContentTypeFor` | src/handler.ts:166-190 | the content type is `image/` followed by the format tag, except that `jpg` gives `image/jpeg`: gif gives `image/gif`, avif gives `image/avif`, webp gives `image/webp`, jpg gives `image/jpeg` |
| `Handler.JobFor` | src/handler.ts:160-169 | the codec decodes the fetched bytes as animated and resizes to the encoding's width without enlargement |
| `Handler.ProcessImage` | src/handler.ts:160-190 | the transform succeeds exactly when the codec does; its result is the codec output paired with the format's content type; otherwise the transform rethrows the codec's error |
| `Handler.Lookup` | src/handler.ts:208-221 | a read hits exactly when it does not fail and the key is in the bucket; a hit is the stored body and content type |
| `Handler.Store` | src/handler.ts:199-205 | a failed write throws its error and leaves the bucket as it was; otherwise the object is put under the key, every other key keeps its object, and the success envelope carries the stored bytes and type |
| `Handler.AfterMiss` | src/handler.ts:68-93 | a thrown or non-2xx fetch throws and stores nothing; a returned response is a 200 or a 400; the bucket is either unchanged, or the request answered 200 and only the key's object changed, to one that carries the request's `url`, is within 5,000,000 bytes and is no larger than the fetched original |
| `Handler.Optimize` | src/handler.ts:60-94 | a validation failure throws its message and stores nothing; a cache hit serves the stored object and stores nothing; a miss continues as `AfterMiss`; the bucket changes only after validation, and only under the validated options' key |
| `Handler.HandlerResponse` | src/handler.ts:46-57 | a returned response passes through; a thrown `Error` gives status 400 with its message as the body; any other thrown value gives status 500 with no headers and no body |
| `Handler.Handle` | src/handler.ts:43-58 | the bucket after the request is that of `Optimize`, the response is `Optimize`'s outcome mapped by the `catch`, and the status is 500 exactly when a non-`Error` value was thrown |
| `Handler.ImageService.GetCachedImage` | src/handler.ts:208-221 | it hits exactly when the read does not fail and the options' key is in the bucket; a hit is the stored body and content type |
| `Handler.ImageService.CacheImage` | src/handler.ts:223-235 | it stores the body, content type and source URL under the options' key; when the write fails the bucket is unchanged |
| `Handler.ImageService.UnmodifiedImage` | src/handler.ts:193-206 | it stores and serves the original bytes under the request's key, or throws the write failure |
| `Handler.ImageService.OptimizeImage` | src/handler.ts:60-94 | its outcome and the new bucket are those of `Optimize` on the old bucket; it keeps every stored object within 5,000,000 bytes |
| `Handler.ImageService.Handler` | src/handler.ts:43-58 | its response and new bucket are those of `Handle`; it keeps every stored object within 5,000,000 bytes |
| `Handler.StepKeepsCeiling` | src/handler.ts:81-93 | if every stored object is within 5,000,000 bytes before a request, the same holds after it |
| `HandlerLemmas.ValidationBounds` | src/handler.ts:27-29 | validated `w` and `q` lie in their bounds; a missing or out-of-range number fails with a message that starts with `"Invalid parameters: "` |
| `HandlerLemmas.QualityBelowMinimumReported` | src/handler.ts:29 | a quality below 50 is refused; the message starts with the parameters prefix and contains the `q` issue naming its minimum |
| `HandlerLemmas.ResolveUrlIdempotent` | src/handler.ts:102-105 | resolving twice gives the same result as resolving once; every `url` that does not start with `http` becomes `"https://" + DEFAULT_DOMAIN + url`, a `/` path as well as an `ftp:` or `data:` URL the schema admits |
| `HandlerLemmas.HostCheck` | src/handler.ts:107-112 | once the schema passes and the URL parses: validation fails with `"Invalid host: " + hostname` exactly when the allowed-hosts string contains neither the hostname nor `*`, and it succeeds otherwise |
| `HandlerLemmas.SubstringHostAdmitted` | src/handler.ts:107-109 | a host occurring anywhere in the allowed-hosts string is admitted, and so is the empty host; every host is admitted once `*` occurs |
| `HandlerLemmas.FragmentOfListedHostAdmitted` | src/handler.ts:108 | with allowed hosts `cdn.example.com,img.example.org`, the host `example.co` is admitted |
| `HandlerLemmas.GifWidthClamped` | src/handler.ts:133-135 | a `.gif` source's width is at most 1024 and at most `w`, and is one of the two; any other source keeps `w` |
| `HandlerLemmas.AvifQuality` | src/handler.ts:137-147 | when `image/avif` is accepted, AVIF is chosen (even if WebP is accepted too) with effort 3 and `4:2:0`; its quality is at least 50, at most `q`, and equals `q - 15` when `q >= 65` |
| `HandlerLemmas.FallbackOrder` | src/handler.ts:149-157 | without AVIF: WebP at the unchanged quality, else GIF with effort 10 for a `.gif` source, else JPEG at the requested width and quality with mozjpeg on |
| `HandlerLemmas.ValidatedEncodingInBounds` | src/handler.ts:118-123 | the encoding of validated options has a width in [16, 3840] and a quality in [50, 100] |
| `HandlerLemmas.ContentTypeOneToOne` | src/handler.ts:166-190 | two encodings get the same content type exactly when they have the same format |
| `HandlerLemmas.CacheHitShortCircuits` | src/handler.ts:63-66 | a hit serves the stored object whatever the fetch and write would do, and leaves the bucket unchanged |
| `HandlerLemmas.CacheReadFailureIsMiss` | src/handler.ts:218-220 | a failed read takes the miss path; its outcome is that of the same request with the key absent |
| `HandlerLemmas.FetchFailureIsError` | src/handler.ts:70-72 | a non-2xx source throws `"Failed to fetch image, status code: " + status`; the handler answers 400 with that message and nothing is stored |
| `HandlerLemmas.OversizedOutputRejected` | src/handler.ts:81-84 | an output over 5,000,000 bytes gives a 400 `"Excessive output size: N bytes"` and stores nothing, whatever the original's size |
| `HandlerLemmas.LargerOutputServesOriginal` | src/handler.ts:86-89 | an output larger than the original (and within the ceiling) means the original bytes and content type are stored under the key and served; the content type defaults to `application/octet-stream` |
| `HandlerLemmas.SmallerOutputServed` | src/handler.ts:91-93 | otherwise the transformed bytes and the format's content type are stored under the key and served |
| `HandlerLemmas.ServedSizeBounded` | src/handler.ts:81-93 | an image served after a miss is no larger than the fetched original and no larger than 5,000,000 bytes |
| `HandlerLemmas.WritesOnlyUnderLookupKey` | src/handler.ts:208-235 | a request changes the bucket only after validation succeeds, and then only under the key it looked up; the object written carries the request's `url` and is within the ceiling |
| `HandlerLemmas.RepeatServedFromCache` | src/handler.ts:60-94 | after a request that answered 200, the same request with a working read gives the identical response and writes nothing |
| `HandlerLemmas.HandlerStatuses` | src/handler.ts:46-57 | the handler answers only 200, 400 or 500; it answers 500 exactly when a value that is not an `Error` was thrown; every 200 is base64 with `X-Image-Cache` false, cache hits included |
| `HandlerLemmas.ValidationFailureIs400` | src/handler.ts:96-112 | every validation failure is a 400 with the validation message, and nothing is stored |

## Left out

- S3, `fetch` and async/await: the bucket is a `map` field. The results of a request's read,
  fetch and write are inputs (`Io`). Concurrent writers to one key are not modelled; a put
  overwrites.
- The image codec, `sharp.concurrency(availableParallelism())`, base64 transport encoding, and
  the full URL, `Number` and `extname` algorithms: all are foreign code or standards. They are
  functions of `Platform`, and the codec is treated as a deterministic function of its job.
- SHA-256 and `JSON.stringify` in `cacheKey`: the key is an arbitrary function of the whole
  options record. Nothing is claimed about collisions.
- `Number(...)` returning ±Infinity (`w=1e400`, `q=Infinity`): no `real` holds it, so the
  platform's `toNumber` must map it to `None` or to an out-of-range value. Either is refused,
  as zod's bounds refuse Infinity; only the issue text differs.
- Handler.ResolveUrl: its own contract does not fix the prefixed form, because that clause makes
  the pipeline lemmas run out of resource. `HandlerLemmas.ResolveUrlIdempotent` states it for
  every `url` that does not start with `http`.
- The exact text of zod's error message, which is a JSON dump of its issues: the model renders
  its own list of issues after the fixed prefix `"Invalid parameters: "`.
- Handler.ValidateOptions: for a `url` string that is neither a URL nor a `/` path, zod reports the first union branch's "Invalid url" issue; the model reports "Invalid input" for every `url` failure.
- A cached object whose body or content type is missing on read: objects written by this service
  always have both, so the model's stored objects always carry them.
- `console.log` and `console.error`: they are logging only.
- Environment parsing (`src/env.ts`), the infrastructure stack (`lib/imago-stack.ts`,
  `bin/imago.ts`) and the local harness (`src/local.ts`): these are not part of this model.
