/**
 * Request construction: how the exported `ajax(options)` function of
 * index.js turns the caller's options bag into the options record it hands
 * to the `request` HTTP client (index.js lines 5-55).
 *
 * The record is built by successive conditional assignments, and its
 * `headers` object is mutated in place. When no locale is given that object
 * is the caller's own `options.headers`, so the caller sees the
 * `Authorization` and `Origin` headers written for an `apiClientId`; with a
 * locale the headers are copied into a fresh object first. `Headers` is
 * therefore a class, and `Ajax` a method that may modify the caller's one.
 */
module Request {
  import opened Prelude
  import opened Js
  import Utf8
  import Base64

  /** A JavaScript object used as a header map, updated in place. */
  class Headers {
    var fields: map<string, JsValue>

    constructor (init: map<string, JsValue>)
      ensures fields == init
    {
      fields := init;
    }

    /** `headers[name] = value`. */
    method Set(name: string, value: JsValue)
      modifies this
      ensures fields == old(fields)[name := value]
    {
      fields := fields[name := value];
    }
  }

  /**
   * The options bag a caller passes. A callback is recorded only by whether
   * it is supplied; `prefilterUrl` is None when it is absent; `headers` is None
   * when `options.headers` is absent, otherwise the caller's own object.
   */
  datatype Options = Options(
    url: JsValue,
    methodValue: JsValue,           // options.method
    typeValue: JsValue,             // options.type
    prefilterUrl: Option<JsValue -> JsValue>,
    data: JsValue,
    headers: Option<Headers>,
    timeout: JsValue,
    locale: JsValue,
    accessToken: JsValue,
    apiClientId: JsValue,
    origin: JsValue,
    clientId: JsValue,
    clientSecret: JsValue,
    hasSuccess: bool,
    hasError: bool,
    hasComplete: bool)

  /** The empty bag `{}`: every property undefined, no callback. */
  const EmptyOptions: Options :=
    Options(Undefined, Undefined, Undefined, None, Undefined, None, Undefined, Undefined,
            Undefined, Undefined, Undefined, Undefined, Undefined, false, false, false)

  /** `opts ? opts : {}`: a missing bag is the empty one. */
  function Defaulted(opts: Option<Options>): Options {
    if opts.Some? then opts.value else EmptyOptions
  }

  /** The `auth` member of the request record. */
  datatype Auth =
    | Unset                                  // left `undefined`
    | Bearer(bearer: JsValue)                // { bearer: accessToken }
    | UserPass(user: JsValue, pass: JsValue) // { user: clientId, pass: clientSecret }

  /** Where `data` goes: nowhere, the query string (`qs`) or the JSON body (`json`). */
  datatype Payload = NoPayload | Query(params: JsValue) | Json(body: JsValue)

  /** The record handed to `request`. */
  class RequestOptions {
    var auth: Auth
    var headers: Headers
    var timeout: JsValue
    var httpMethod: JsValue
    var url: JsValue
    var qs: Option<JsValue>
    var json: Option<JsValue>

    constructor (headers: Headers, timeout: JsValue, httpMethod: JsValue, url: JsValue)
      ensures this.headers == headers && this.timeout == timeout
      ensures this.httpMethod == httpMethod && this.url == url
      ensures auth == Unset && qs == None && json == None
    {
      this.auth := Unset;
      this.headers := headers;
      this.timeout := timeout;
      this.httpMethod := httpMethod;
      this.url := url;
      this.qs := None;
      this.json := None;
    }
  }

  const Get: JsValue := Str("GET")

  const MissingErrorCallback: string := "`options.error` callback has to be defined"

  /** `options.method || options.type || 'GET'`. */
  function RequestMethod(o: Options): (m: JsValue)
    ensures Truthy(m)
    ensures m == o.methodValue || m == o.typeValue || m == Get
    ensures Truthy(o.methodValue) ==> m == o.methodValue
    ensures !Truthy(o.methodValue) && Truthy(o.typeValue) ==> m == o.typeValue
    ensures !Truthy(o.methodValue) && !Truthy(o.typeValue) ==> m == Get
  {
    Or(o.methodValue, Or(o.typeValue, Get))
  }

  /** The URL after the caller's optional `prefilterUrl` hook. */
  function RequestUrl(o: Options): (u: JsValue)
    ensures o.prefilterUrl.None? ==> u == o.url
    ensures o.prefilterUrl.Some? ==> u == o.prefilterUrl.value(o.url)
  {
    match o.prefilterUrl
    case None => o.url
    case Some(f) => f(o.url)
  }

  /** `JSON.parse(data)` for a string, the value itself otherwise. */
  function JsonOf(v: JsValue, parse: string -> JsValue): (r: JsValue)
    ensures !v.Str? ==> r == v
    ensures v.Str? ==> r == parse(v.s)
  {
    if v.Str? then parse(v.s) else v
  }

  /**
   * Where truthy `data` goes: the query string exactly when the method is the
   * string "GET", the JSON body otherwise.
   */
  function Placement(o: Options, parse: string -> JsValue): (p: Payload)
    ensures p.NoPayload? <==> !Truthy(o.data)
    ensures p.Query? <==> Truthy(o.data) && RequestMethod(o) == Get
    ensures p.Json? <==> Truthy(o.data) && RequestMethod(o) != Get
    ensures p.Query? ==> p.params == o.data
    ensures p.Json? ==> p.body == JsonOf(o.data, parse)
  {
    if !Truthy(o.data) then NoPayload
    else if RequestMethod(o) == Get then Query(o.data)
    else Json(JsonOf(o.data, parse))
  }

  /** The configuration error recorded when no `error` callback is given; undefined otherwise. */
  function ConfigurationError(o: Options): (e: JsValue)
    ensures Truthy(e) <==> !o.hasError
    ensures !o.hasError ==> e == ErrorObject(MissingErrorCallback)
  {
    if o.hasError then Undefined else ErrorObject(MissingErrorCallback)
  }

  /**
   * The credential of section 2 of RFC 7617 for user-id `apiClientId` and an
   * empty password: "Basic " and the Base64 of the UTF-8 bytes of `id:`.
   */
  function BasicAuthorization(apiClientId: JsValue): (h: string)
    ensures |h| > 6 && h[..6] == "Basic "
  {
    "Basic " + Base64.Encode(Utf8.Encode(ToString(apiClientId) + ":"))
  }

  /** The precedence rule: a client id is sent as a header only when no access token is given. */
  predicate UsesClientIdHeader(o: Options) {
    !Truthy(o.accessToken) && Truthy(o.apiClientId)
  }

  /**
   * The `auth` member: a bearer token first, then (when no client id header is
   * sent) user and password from `clientId` and `clientSecret`, even undefined ones.
   */
  function RequestAuth(o: Options): (a: Auth)
    ensures a.Bearer? <==> Truthy(o.accessToken)
    ensures a.Unset? <==> UsesClientIdHeader(o)
    ensures a.UserPass? <==> !Truthy(o.accessToken) && !Truthy(o.apiClientId)
    ensures a.Bearer? ==> a.bearer == o.accessToken
    ensures a.UserPass? ==> a.user == o.clientId && a.pass == o.clientSecret
  {
    if Truthy(o.accessToken) then Bearer(o.accessToken)
    else if Truthy(o.apiClientId) then Unset
    else UserPass(o.clientId, o.clientSecret)
  }

  /** `Object.assign({'Accept-Language': locale}, callerHeaders)` for a truthy locale; the caller's fields otherwise. */
  function LocaleHeaders(o: Options, caller: map<string, JsValue>): map<string, JsValue> {
    if Truthy(o.locale) then map["Accept-Language" := o.locale] + caller else caller
  }

  /** The header fields after the authentication step wrote `Authorization` and `Origin`, when it does. */
  function AuthHeaders(o: Options, base: map<string, JsValue>): map<string, JsValue> {
    if UsesClientIdHeader(o) then
      base["Authorization" := Str(BasicAuthorization(o.apiClientId))]["Origin" := o.origin]
    else base
  }

  /**
   * The headers the request carries, given the fields the caller's header
   * object holds: `Accept-Language` from a truthy locale, overridden by every
   * caller header, then `Authorization` and `Origin` written over both when a
   * client id header is sent.
   */
  function RequestHeaders(o: Options, caller: map<string, JsValue>): (h: map<string, JsValue>)
    ensures h.Keys == caller.Keys
                      + (if Truthy(o.locale) then {"Accept-Language"} else {})
                      + (if UsesClientIdHeader(o) then {"Authorization", "Origin"} else {})
    ensures forall k | k in caller && !(UsesClientIdHeader(o) && k in {"Authorization", "Origin"}) ::
              h[k] == caller[k]
    ensures Truthy(o.locale) && "Accept-Language" !in caller ==> h["Accept-Language"] == o.locale
    ensures UsesClientIdHeader(o) ==>
              h["Authorization"] == Str(BasicAuthorization(o.apiClientId)) && h["Origin"] == o.origin
  {
    AuthHeaders(o, LocaleHeaders(o, caller))
  }

  /** The caller's header object, the only object `Ajax` may change that it did not create. */
  function CallerHeaders(opts: Option<Options>): set<object> {
    if opts.Some? && opts.value.headers.Some? then {opts.value.headers.value} else {}
  }

  /** The fields of the caller's header object; an absent one counts as empty. */
  function CallerFields(o: Options): map<string, JsValue>
    reads if o.headers.Some? then {o.headers.value} else {}
  {
    if o.headers.Some? then o.headers.value.fields else map[]
  }

  /** Whether the request's header object is the caller's own: it has one and gives no locale. */
  predicate SharesCallerHeaders(o: Options) {
    o.headers.Some? && !Truthy(o.locale)
  }

  /** Lines 15-27: truthy `data` goes to `qs` for a GET, to `json` (parsed when a string) otherwise. */
  method PlaceData(ro: RequestOptions, o: Options, parse: string -> JsValue)
    requires ro.httpMethod == RequestMethod(o) && ro.qs == None && ro.json == None
    modifies ro`qs, ro`json
    ensures ro.qs == (if Placement(o, parse).Query? then Some(o.data) else None)
    ensures ro.json == (if Placement(o, parse).Json? then Some(JsonOf(o.data, parse)) else None)
  {
    if Truthy(o.data) {
      if ro.httpMethod == Get {
        ro.qs := Some(o.data);
      } else if o.data.Str? {
        ro.json := Some(parse(o.data.s));
      } else {
        ro.json := Some(o.data);
      }
    }
  }

  /** Lines 33-37: with a truthy locale the headers become a fresh merged copy; otherwise they stay the object they were. */
  method ApplyLocale(ro: RequestOptions, o: Options)
    requires ro.headers.fields == CallerFields(o)
    modifies ro`headers
    ensures Truthy(o.locale) ==> fresh(ro.headers)
    ensures !Truthy(o.locale) ==> ro.headers == old(ro.headers)
    ensures ro.headers.fields == LocaleHeaders(o, CallerFields(o))
  {
    if Truthy(o.locale) {
      ro.headers := new Headers(map["Accept-Language" := o.locale] + CallerFields(o));
    }
  }

  /**
   * Lines 39-55: the bearer token first; else `Authorization` and `Origin`
   * written into the headers object in place; else user and password.
   */
  method ApplyAuth(ro: RequestOptions, o: Options)
    requires ro.auth == Unset
    modifies ro`auth, ro.headers
    ensures ro.headers == old(ro.headers)
    ensures ro.auth == RequestAuth(o)
    ensures ro.headers.fields == AuthHeaders(o, old(ro.headers.fields))
  {
    if Truthy(o.accessToken) {
      ro.auth := Bearer(o.accessToken);
    } else if Truthy(o.apiClientId) {
      ro.headers.Set("Authorization", Str(BasicAuthorization(o.apiClientId)));
      ro.headers.Set("Origin", o.origin);
    } else {
      ro.auth := UserPass(o.clientId, o.clientSecret);
    }
  }

  /**
   * The body of the exported function up to the call of `request`: builds the
   * request record and the configuration error. It never fails, whatever the
   * options (a missing bag included).
   */
  method Ajax(opts: Option<Options>, parse: string -> JsValue) returns (ro: RequestOptions, optionsError: JsValue)
    modifies CallerHeaders(opts)
    ensures var o := Defaulted(opts);
      && fresh(ro)
      && ro.httpMethod == RequestMethod(o)
      && ro.url == RequestUrl(o)
      && ro.timeout == o.timeout
      && ro.qs == (if Placement(o, parse).Query? then Some(o.data) else None)
      && ro.json == (if Placement(o, parse).Json? then Some(JsonOf(o.data, parse)) else None)
      && ro.auth == RequestAuth(o)
      && ro.headers.fields == RequestHeaders(o, old(CallerFields(o)))
      && optionsError == ConfigurationError(o)
    ensures var o := Defaulted(opts);
      && (SharesCallerHeaders(o) ==> ro.headers == o.headers.value)
      && (!SharesCallerHeaders(o) ==> fresh(ro.headers))
      && (o.headers.Some? ==>
            o.headers.value.fields == if SharesCallerHeaders(o) then ro.headers.fields
                                      else old(o.headers.value.fields))
  {
    var options := Defaulted(opts);
    var headers: Headers;
    if options.headers.Some? {
      headers := options.headers.value;
    } else {
      headers := new Headers(map[]);
    }
    var url := if options.prefilterUrl.Some? then options.prefilterUrl.value(options.url) else options.url;
    ro := new RequestOptions(headers, options.timeout, Or(options.methodValue, Or(options.typeValue, Get)), url);

    PlaceData(ro, options, parse);

    optionsError := Undefined;
    if !options.hasError {
      optionsError := ErrorObject(MissingErrorCallback);
    }

    ApplyLocale(ro, options);
    ApplyAuth(ro, options);
  }

  /** `ajax()` with no bag: a GET of an undefined URL, no payload, undefined user and password, no headers, and the configuration error. */
  lemma EmptyBag(parse: string -> JsValue)
    ensures var o := Defaulted(None);
      && RequestMethod(o) == Get
      && RequestUrl(o) == Undefined
      && Placement(o, parse) == NoPayload
      && RequestAuth(o) == UserPass(Undefined, Undefined)
      && RequestHeaders(o, CallerFields(o)) == map[]
      && ConfigurationError(o) == ErrorObject(MissingErrorCallback)
  {
  }

  /** The RFC 7617 credential decodes back to the client id and an empty password. */
  lemma BasicCredentialRoundTrip(apiClientId: JsValue)
    ensures var h := BasicAuthorization(apiClientId);
      && Base64.Decode(h[6..]) == Some(Utf8.Encode(ToString(apiClientId) + ":"))
      && Utf8.Decode(Base64.Decode(h[6..]).value) == Some(ToString(apiClientId) + ":")
  {
    var credential := ToString(apiClientId) + ":";
    var h := BasicAuthorization(apiClientId);
    assert h[6..] == Base64.Encode(Utf8.Encode(credential));
    Base64.DecodeEncode(Utf8.Encode(credential));
    Utf8.DecodeEncode(credential);
  }

  /** The credential text of the client id "foobar" and its UTF-8 octets. */
  lemma FoobarCredential()
    ensures ToString(Str("foobar")) + ":" == "foobar:"
    ensures Utf8.Encode("foobar:") == [102, 111, 111, 98, 97, 114, 58]
  {
  }

  /** The client id "foobar" gives the header value "Basic Zm9vYmFyOg==". */
  lemma ClientIdTestVector()
    ensures BasicAuthorization(Str("foobar")) == "Basic Zm9vYmFyOg=="
  {
    calc {
      BasicAuthorization(Str("foobar"));
      "Basic " + Base64.Encode(Utf8.Encode(ToString(Str("foobar")) + ":"));
      { FoobarCredential(); }
      "Basic " + Base64.Encode([102, 111, 111, 98, 97, 114, 58]);
      { Base64.EncodeFoobarColon(); }
      "Basic " + "Zm9vYmFyOg==";
      "Basic Zm9vYmFyOg==";
    }
  }

  /** A bearer token suppresses the client id header: `Authorization` and `Origin` are the caller's, if any. */
  lemma BearerAddsNoAuthHeaders(o: Options, caller: map<string, JsValue>)
    requires Truthy(o.accessToken)
    ensures var h := RequestHeaders(o, caller);
      && RequestAuth(o) == Bearer(o.accessToken)
      && ("Authorization" in h <==> "Authorization" in caller)
      && ("Origin" in h <==> "Origin" in caller)
      && ("Authorization" in caller ==> h["Authorization"] == caller["Authorization"])
      && ("Origin" in caller ==> h["Origin"] == caller["Origin"])
  {
  }

  /** A caller's `Accept-Language` wins over the locale. */
  lemma CallerHeadersWinOverLocale(o: Options, caller: map<string, JsValue>)
    requires Truthy(o.locale) && "Accept-Language" in caller
    ensures RequestHeaders(o, caller)["Accept-Language"] == caller["Accept-Language"]
  {
  }

  /**
   * Without a locale and without a client id header the request's headers are
   * exactly the caller's, so `Ajax` leaves a shared header object as it was.
   */
  lemma CallerHeadersUntouched(o: Options, caller: map<string, JsValue>)
    requires !Truthy(o.locale) && !UsesClientIdHeader(o)
    ensures RequestHeaders(o, caller) == caller
  {
  }

  /**
   * The aliasing quirk, on the client id "foobar": without a locale the
   * caller's own header object gains `Authorization`; with one it is left as
   * it was and the request carries a copy.
   */
  method ClientIdHeaderAliasing(parse: string -> JsValue) returns (shared: map<string, JsValue>, copied: map<string, JsValue>)
    ensures shared == map["X-Foo" := Str("Bar"), "Authorization" := Str("Basic Zm9vYmFyOg=="), "Origin" := Undefined]
    ensures copied == map["X-Foo" := Str("Bar")]
  {
    var bag := EmptyOptions.(apiClientId := Str("foobar"), hasError := true);
    ClientIdTestVector();

    var h1 := new Headers(map["X-Foo" := Str("Bar")]);
    var ro1, _ := Ajax(Some(bag.(headers := Some(h1))), parse);
    shared := h1.fields;

    var h2 := new Headers(map["X-Foo" := Str("Bar")]);
    var ro2, _ := Ajax(Some(bag.(headers := Some(h2), locale := Str("de"))), parse);
    copied := h2.fields;
  }
}
