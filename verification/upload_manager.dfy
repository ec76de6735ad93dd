/** PhotoUploadManager.kt: the upload settings kept in the "UploadSettings"
    preferences file, endpoint validation, and the multipart request with its
    completion callback. The HTTP client itself is outside the model: a request
    is either refused before it is sent (an `Immediate` callback) or handed to
    the client, whose eventual outcome is classified by `ClassifyResponse`. */
module PhotoUploadManager {
  import opened Wrappers
  import opened Text
  import opened Files

  const KEY_API_ENDPOINT: string := "api_endpoint"
  const KEY_API_KEY: string := "api_key"
  const DEFAULT_ENDPOINT: string := "https" + "://" + "httpbin.org/post"

  /** The preferences file: a string key-value store. */
  class SharedPreferences {
    var entries: map<string, string>

    constructor()
      ensures entries == map[]
      ensures GetApiEndpoint(this) == DEFAULT_ENDPOINT && GetApiKey(this) == None
      ensures !IsEndpointConfigured(this)
    {
      entries := map[];
    }
  }

  /** `getApiEndpoint`: the stored endpoint, or the default test endpoint. */
  function GetApiEndpoint(prefs: SharedPreferences): string
    reads prefs
  {
    if KEY_API_ENDPOINT in prefs.entries then prefs.entries[KEY_API_ENDPOINT] else DEFAULT_ENDPOINT
  }

  /** `getApiKey`: the stored key, or null. */
  function GetApiKey(prefs: SharedPreferences): Option<string>
    reads prefs
  {
    if KEY_API_KEY in prefs.entries then Some(prefs.entries[KEY_API_KEY]) else None
  }

  /** `setApiEndpoint`: stores the endpoint, which is what `getApiEndpoint`
      returns from then on; the key is untouched. */
  method SetApiEndpoint(prefs: SharedPreferences, endpoint: string)
    modifies prefs
    ensures prefs.entries == old(prefs.entries)[KEY_API_ENDPOINT := endpoint]
    ensures GetApiEndpoint(prefs) == endpoint
    ensures GetApiKey(prefs) == old(GetApiKey(prefs))
  {
    prefs.entries := prefs.entries[KEY_API_ENDPOINT := endpoint];
  }

  /** `setApiKey`: a null or blank key removes the entry, anything else is
      stored; the endpoint is untouched. */
  method SetApiKey(prefs: SharedPreferences, apiKey: Option<string>)
    modifies prefs
    ensures apiKey.None? || IsBlank(apiKey.value) ==> prefs.entries == old(prefs.entries) - {KEY_API_KEY}
    ensures apiKey.Some? && !IsBlank(apiKey.value) ==> prefs.entries == old(prefs.entries)[KEY_API_KEY := apiKey.value]
    ensures GetApiKey(prefs) == if apiKey.None? || IsBlank(apiKey.value) then None else apiKey
    ensures GetApiEndpoint(prefs) == old(GetApiEndpoint(prefs))
  {
    if apiKey.None? || IsBlank(apiKey.value) {
      prefs.entries := prefs.entries - {KEY_API_KEY};
    } else {
      prefs.entries := prefs.entries[KEY_API_KEY := apiKey.value];
    }
  }

  /** `isEndpointConfigured`. */
  predicate IsEndpointConfigured(prefs: SharedPreferences)
    reads prefs
  {
    var endpoint := GetApiEndpoint(prefs);
    endpoint != DEFAULT_ENDPOINT && !IsBlank(endpoint)
  }

  /** The store is configured exactly when it holds an endpoint of its own that
      is neither blank nor the default test endpoint. */
  lemma ConfiguredIffStored(prefs: SharedPreferences)
    ensures IsEndpointConfigured(prefs) <==>
      KEY_API_ENDPOINT in prefs.entries
      && prefs.entries[KEY_API_ENDPOINT] != DEFAULT_ENDPOINT
      && !IsBlank(prefs.entries[KEY_API_ENDPOINT])
  {
  }

  // ---- java.net.URL: how it finds the protocol of a spec string ----

  /** java.net.URL first drops characters <= ' ' at both ends. */
  function UrlTrimStart(s: string): (r: string)
    ensures |r| <= |s| && r == s[|s| - |r|..]
    ensures |s| > 0 && s[0] > ' ' ==> r == s
  {
    if |s| > 0 && s[0] <= ' ' then UrlTrimStart(s[1..]) else s
  }

  function UrlTrimEnd(s: string): (r: string)
    ensures |r| <= |s| && r == s[..|r|]
    ensures forall k :: |r| <= k < |s| ==> s[k] <= ' '
  {
    if |s| > 0 && s[|s| - 1] <= ' ' then UrlTrimEnd(s[..|s| - 1]) else s
  }

  /** The index of the first ':' that comes before any '/'. */
  function ColonBeforeSlash(s: string): (r: Option<nat>)
    ensures r.Some? ==> r.value < |s| && s[r.value] == ':'
    ensures r.Some? ==> forall k :: 0 <= k < r.value ==> s[k] != ':' && s[k] != '/'
    ensures ':' !in s ==> r.None?
  {
    if s == [] then None
    else if s[0] == ':' then Some(0)
    else if s[0] == '/' then None
    else match ColonBeforeSlash(s[1..])
      case None => None
      case Some(i) => Some(i + 1)
  }

  predicate IsAsciiLetter(c: char) {
    ('a' <= c <= 'z') || ('A' <= c <= 'Z')
  }

  /** `URL.isValidProtocol`: a letter, then letters, digits, '.', '+' or '-'. */
  predicate IsValidProtocol(p: string) {
    && |p| >= 1
    && IsAsciiLetter(p[0])
    && forall i :: 1 <= i < |p| ==> IsAsciiLetter(p[i]) || ('0' <= p[i] <= '9') || p[i] in ".+-"
  }

  /** java.net.URL skips a leading "url:" (any case). */
  function SkipUrlPrefix(t: string): (start: nat)
    ensures start <= |t|
    ensures |t| > 0 && LowerChar(t[0]) != 'u' ==> start == 0
  {
    if |t| >= 4 && Lower(t[..4]) == "url:" then 4 else 0
  }

  /** The lowercased text before the first ':' that precedes any '/', if it is
      a valid protocol name. */
  function ProtocolOf(body: string): Option<string> {
    match ColonBeforeSlash(body)
    case None => None
    case Some(i) =>
      var p := Lower(body[..i]);
      if IsValidProtocol(p) then Some(p) else None
  }

  /** The protocol java.net.URL reads from a spec, lowercased; None where the
      constructor would throw for want of a protocol. */
  function UrlProtocol(spec: string): Option<string> {
    var t := UrlTrimEnd(UrlTrimStart(spec));
    ProtocolOf(t[SkipUrlPrefix(t)..])
  }

  /** `validateEndpoint`: not blank, and java.net.URL reads an http or https protocol. */
  predicate ValidateEndpoint(endpoint: string) {
    if IsBlank(endpoint) then false
    else
      var protocol := UrlProtocol(endpoint);
      protocol == Some("http") || protocol == Some("https")
  }

  lemma LowerOfLowercase(s: string)
    requires forall i :: 0 <= i < |s| ==> !('A' <= s[i] <= 'Z')
    ensures Lower(s) == s
  {
  }

  /** Trimming keeps a prefix that starts and ends with visible characters. */
  lemma UrlTrimKeepsPrefix(s: string, n: nat)
    requires n < |s| && s[0] > ' ' && s[n] > ' '
    ensures var t := UrlTrimEnd(UrlTrimStart(s)); |t| > n && t[..n + 1] == s[..n + 1]
  {
    assert UrlTrimStart(s) == s;
  }

  /** The protocol of a body that starts with a lowercase scheme and ':'. */
  lemma ProtocolOfScheme(t: string, scheme: string)
    requires scheme == "http" || scheme == "https"
    requires |t| > |scheme| && t[..|scheme| + 1] == scheme + ":"
    ensures ProtocolOf(t) == Some(scheme)
  {
    var n := |scheme|;
    assert forall k :: 0 <= k <= n ==> t[k] == (scheme + ":")[k];
    ColonBeforeSlashOfPrefix(t, n);
    assert t[..n] == scheme;
    LowerOfLowercase(scheme);
  }

  /** Every http:// or https:// URL validates, whatever follows the scheme. */
  lemma HttpUrlsValidate(scheme: string, rest: string)
    requires scheme == "http" || scheme == "https"
    ensures ValidateEndpoint(scheme + "://" + rest)
  {
    var s := scheme + "://" + rest;
    var n := |scheme|;
    assert s[..n + 2] == scheme + ":/";
    assert s[0] == 'h' && s[n + 1] == '/';
    assert !IsBlank(s) by { assert !IsWhitespace(s[0]); }
    UrlTrimKeepsPrefix(s, n + 1);
    var t := UrlTrimEnd(UrlTrimStart(s));
    assert t[..n + 1] == scheme + ":" by {
      assert t[..n + 1] == s[..n + 2][..n + 1];
    }
    assert t[0] == 'h';
    assert SkipUrlPrefix(t) == 0;
    assert t[0..] == t;
    ProtocolOfScheme(t, scheme);
    assert UrlProtocol(s) == Some(scheme);
  }

  lemma {:induction false} ColonBeforeSlashOfPrefix(t: string, n: nat)
    requires n < |t| && t[n] == ':'
    requires forall k :: 0 <= k < n ==> t[k] != ':' && t[k] != '/'
    ensures ColonBeforeSlash(t) == Some(n)
  {
    if n > 0 {
      ColonBeforeSlashOfPrefix(t[1..], n - 1);
    }
  }

  /** The default test endpoint is itself a valid URL. */
  lemma DefaultEndpointValid()
    ensures ValidateEndpoint(DEFAULT_ENDPOINT)
  {
    HttpUrlsValidate("https", "httpbin.org/post");
  }

  /** Without a ':' there is no protocol, so the endpoint is rejected. */
  lemma NoColonInvalid(endpoint: string)
    requires ':' !in endpoint
    ensures !ValidateEndpoint(endpoint)
  {
    var t := UrlTrimEnd(UrlTrimStart(endpoint));
    var body := t[SkipUrlPrefix(t)..];
    assert forall k :: 0 <= k < |body| ==> body[k] in endpoint;
    assert ':' !in body;
    assert ProtocolOf(body) == None;
  }

  // ---- the multipart request and its callback ----

  datatype FormPart =
    | FilePart(name: string, filename: string, contentType: string)
    | TextPart(name: string, value: string)

  datatype Header = Header(name: string, value: string)

  datatype HttpRequest = HttpRequest(url: string, parts: seq<FormPart>, headers: seq<Header>)

  /** A thrown exception, by its (nullable) message. */
  datatype Exception = Exception(message: Option<string>)

  /** The arguments of the `(success, error, responseBody)` callback. */
  datatype CallbackArgs = CallbackArgs(success: bool, error: Option<string>, responseBody: Option<string>)

  /** What `uploadPhoto` does on the calling thread: either it calls back at
      once, or it hands a request to the HTTP client. */
  datatype Submission = Immediate(args: CallbackArgs) | Enqueued(request: HttpRequest)

  /** What eventually happens to an enqueued request. */
  datatype HttpOutcome =
    | Responded(code: int, message: string, body: Option<string>)
    | NetworkFailure(cause: Exception)

  /** OkHttp's `Response.isSuccessful`: a status code in [200..300). */
  predicate IsSuccessful(code: int) {
    200 <= code < 300
  }

  /** Kotlin string interpolation of a nullable string. */
  function Interpolate(m: Option<string>): string {
    if m.Some? then m.value else "null"
  }

  /** The optional `Authorization: Bearer <key>` header: present iff the key is non-blank. */
  function AuthHeaders(apiKey: Option<string>): (hs: seq<Header>)
    ensures |hs| <= 1
    ensures |hs| == 1 <==> apiKey.Some? && !IsBlank(apiKey.value)
    ensures |hs| == 1 ==> hs[0].name == "Authorization" && hs[0].value == "Bearer " + apiKey.value
  {
    if apiKey.Some? && !IsBlank(apiKey.value) then [Header("Authorization", "Bearer " + apiKey.value)] else []
  }

  /** The multipart form: the photo under its own file name, the send time in
      decimal milliseconds, and the file name again. */
  function MultipartBody(file: FileEntry, now: int): (parts: seq<FormPart>)
    ensures |parts| == 3
    ensures parts[0].FilePart? && parts[0].name == "photo" && parts[0].filename == file.name
    ensures parts[0].contentType == "image/jpeg"
    ensures parts[1].TextPart? && parts[1].name == "timestamp"
    ensures now >= 0 ==> parts[1].value == NatToString(now) && DecimalValue(parts[1].value) == now
    ensures parts[2] == TextPart("filename", file.name)
  {
    TimestampRoundTrip(now);
    [FilePart("photo", file.name, "image/jpeg"),
     TextPart("timestamp", IntToString(now)),
     TextPart("filename", file.name)]
  }

  lemma TimestampRoundTrip(now: int)
    ensures now >= 0 ==> IntToString(now) == NatToString(now) && DecimalValue(NatToString(now)) == now
  {
    if now >= 0 { NatToStringRoundTrip(now); }
  }

  /** `uploadPhoto` after it has read the endpoint and the key, up to the
      point where the request is enqueued. A missing or unreadable file, or an
      exception while building the request, calls back at once with failure
      and sends nothing. */
  function Submit(endpoint: string, apiKey: Option<string>, file: FileEntry, now: int,
                  buildFailure: Option<Exception>): (s: Submission)
    ensures !file.present || !file.canRead ==>
      s == Immediate(CallbackArgs(false, Some("File not found or not readable"), None))
    ensures file.present && file.canRead && buildFailure.Some? ==>
      s == Immediate(CallbackArgs(false, Some("Error: " + Interpolate(buildFailure.value.message)), None))
    ensures s.Immediate? ==> !s.args.success && s.args.error.Some? && s.args.responseBody.None?
    ensures s.Enqueued? <==> file.present && file.canRead && buildFailure.None?
    ensures s.Enqueued? ==> s.request.url == endpoint
    ensures s.Enqueued? ==> s.request.parts == MultipartBody(file, now)
    ensures s.Enqueued? ==> s.request.headers == AuthHeaders(apiKey)
  {
    if !file.present || !file.canRead then
      Immediate(CallbackArgs(false, Some("File not found or not readable"), None))
    else if buildFailure.Some? then
      Immediate(CallbackArgs(false, Some("Error: " + Interpolate(buildFailure.value.message)), None))
    else
      Enqueued(HttpRequest(endpoint, MultipartBody(file, now), AuthHeaders(apiKey)))
  }

  /** `uploadPhoto`: the request goes to the stored endpoint, with the stored
      key. */
  function UploadPhoto(prefs: SharedPreferences, file: FileEntry, now: int, buildFailure: Option<Exception>): (s: Submission)
    reads prefs
    ensures s.Enqueued? <==> file.present && file.canRead && buildFailure.None?
    ensures s.Enqueued? ==> s.request.url == GetApiEndpoint(prefs)
    ensures s.Enqueued? ==> s.request.headers == AuthHeaders(GetApiKey(prefs))
    ensures s.Enqueued? ==> s.request.parts == MultipartBody(file, now)
    ensures s.Immediate? ==> s == Submit("", None, file, now, buildFailure)
  {
    Submit(GetApiEndpoint(prefs), GetApiKey(prefs), file, now, buildFailure)
  }

  /** The callback arguments for the outcome of an enqueued request. */
  function ClassifyResponse(outcome: HttpOutcome): (args: CallbackArgs)
    ensures args.success <==> outcome.Responded? && 200 <= outcome.code < 300
    ensures args.success <==> args.error.None?
    ensures args.responseBody == if outcome.Responded? then outcome.body else None
    ensures outcome.Responded? && !(200 <= outcome.code < 300) ==>
      args.error == Some("Server error: " + IntToString(outcome.code) + " " + outcome.message)
    ensures outcome.NetworkFailure? ==>
      args.error == Some("Network error: " + Interpolate(outcome.cause.message))
  {
    match outcome
    case Responded(code, message, body) =>
      if IsSuccessful(code) then CallbackArgs(true, None, body)
      else CallbackArgs(false, Some("Server error: " + IntToString(code) + " " + message), body)
    case NetworkFailure(cause) =>
      CallbackArgs(false, Some("Network error: " + Interpolate(cause.message)), None)
  }
}
