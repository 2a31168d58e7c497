# request-ajax, modelled in Dafny

request-ajax is a Backbone-style `ajax(options)` shim over the `request` HTTP
client. Its whole logic is the one function exported by `index.js`. This
project models that function in two parts.

- **Request construction** (`index.js` lines 5-55), in `request.dfy`. The
  caller's options bag becomes the record handed to `request`. Its steps are:
  - default a missing bag to `{}`;
  - choose the method (`method`, else `type`, else `"GET"`);
  - apply the optional `prefilterUrl` hook to the URL;
  - place `data` in `qs` (GET only) or in `json`, parsing a string first;
  - record a configuration error when there is no `error` callback;
  - merge an `Accept-Language` header, where caller headers win;
  - resolve authentication in a fixed order: a bearer `accessToken`, else a
    Basic `Authorization` header and an `Origin` header for `apiClientId`,
    else user and password from `clientId` and `clientSecret`.

  The source builds this record by successive assignments and mutates its
  header object in place. So `Headers` and `RequestOptions` are classes, and
  `Ajax` is a method built from three steps: `PlaceData`, `ApplyLocale` and
  `ApplyAuth`. Each step's result is stated through pure specification
  functions, and the lemmas are about those functions. The model keeps one
  aliasing quirk. Without a locale, the request's header object IS the
  caller's `options.headers`, so the caller sees the `Authorization` and
  `Origin` headers written for an `apiClientId`. With a locale, the headers
  are first copied into a fresh object.
- **Outcome resolution** (`index.js` lines 57-84), in `outcome.dfy`. `Settle`
  is a pure function. It takes the transport error, the response and the body
  that `request` reports, and returns the ordered list of callback calls with
  their arguments.

Supporting modules:
- `js.dfy`: JavaScript values, truthiness, `||`, and the string conversion
  that `apiClientId + ':'` applies.
- `utf8.dfy`: UTF-8 (RFC 3629 section 3). `new Buffer(string)` uses it.
- `base64.dfy`: Base64 (RFC 4648 section 4). `Buffer.toString('base64')` uses it.
- `prelude.dfy`: `Option` and `byte`.

Both encoders have decoders as partners, with round-trip lemmas. The
credential follows section 2 of RFC 7617. Lemmas prove that it matches the
test vector `"foobar"` → `"Basic Zm9vYmFyOg=="`, and that the encoder matches
the vectors in section 10 of RFC 4648.

Three behaviours of `index.js` are easy to expect otherwise, and the model
keeps them as written:
- `index.js` contains no https-to-http rewrite of the URL, although
  test/index.js:150-173 expects one unless `allowHTTPS` is set. None is
  modelled.
- When no access token and no client id are given, `index.js` always sets
  `auth = {user: clientId, pass: clientSecret}` (index.js:49-54), even when
  both are undefined. The `request` library itself then raises "no auth
  mechanism defined"; here that is just one possible transport error given to
  `Settle`.
- A missing status and a real 404 both give 404 (index.js:58), and so does
  `EffectiveStatus`.

## Model

| member | source | states |
|---|---|---|
| `Js.Truthy` | index.js:15 | the rule behind every `if (x)` and logical or in index.js (lines 5, 8, 10, 15, 29, 33, 39, 45, 58, 60, 64): `undefined`, `null`, `false`, `0` and `""` are falsy, every other value is truthy |
| `Js.Or` | index.js:10 | JavaScript logical or on values: the result is one of the operands; it is truthy iff either operand is; a truthy first operand wins, and a falsy one gives the second operand (so `undefined` for `null` and `undefined`) |
| `Js.ToString` | index.js:46 | `String(v)` as `v + ':'` applies it: a string converts to itself; a number to its decimal numeral, after '-' when negative; a boolean to "true" or "false"; the result is empty only for the empty string |
| `Js.NumberNumeral` | index.js:46 | the text a number converts to reads back as that number: its digits give the magnitude, after a '-' when negative |
| `Js.Decimal` | index.js:46 | the numeral of a number is a non-empty digit string without leading zeros |
| `Js.DecimalRoundTrip` | index.js:46 | reading the numeral back gives the number: the numeral is the plain decimal form of the integer |
| `Utf8.EncodeChar` | index.js:46 | one scalar value takes the shortest form RFC 3629 allows: 1 byte below U+0080, 2 below U+0800, 3 below U+10000, else 4, so no overlong form; its lead byte announces the length; later bytes are continuation bytes; ASCII stays one identical byte |
| `Utf8.Encode` | index.js:46 | a string's UTF-8 is between 1 and 4 bytes per character |
| `Utf8.DecodeEncodeChar` | index.js:46 | decoding one encoded character gives it back |
| `Utf8.DecodeEncode` | index.js:46 | `Decode(Encode(s)) == Some(s)` for every string |
| `Utf8.AsciiEncode` | index.js:46 | on ASCII text the encoding has one byte per character, equal to its code |
| `Base64.CharOf` | index.js:46 | each 6-bit group maps to an alphabet character that is never the pad, and `IndexOf` maps it back |
| `Base64.IndexOf` | index.js:46 | a character decodes to a value in 0..63, and the pad never decodes |
| `Base64.IndexOfCharOf` | index.js:46 | a character that decodes is the alphabet character of its value, so only alphabet characters decode |
| `Base64.EncodeTriple` | index.js:46 | three octets give one 4-character quantum |
| `Base64.Encode` | index.js:46 | the text has length `4 * ceil(n / 3)` for n octets |
| `Base64.DecodeQuad` | index.js:46 | a quantum decodes to 1 octet when it ends in "==", 2 when it ends in one "=", and 3 when it has no pad; a padded quantum decodes only when the bits its pad leaves over are zero (RFC 4648 section 3.5), so the round trip fixes the encoder's last quantum too |
| `Base64.DecodeEncodeTriple` | index.js:46 | a full quantum decodes back to its three octets |
| `Base64.DecodeEncodeSingle` | index.js:46 | a single final octet, padded with "==", decodes back |
| `Base64.DecodeEncodePair` | index.js:46 | two final octets, padded with "=", decode back |
| `Base64.DecodeEncode` | index.js:46 | `Decode(Encode(b)) == Some(b)` for every octet string |
| `Base64.EncodeFoobarColon` | test/index.js:189-200 | the octets of "foobar:" encode as "Zm9vYmFyOg==" |
| `Base64.Rfc4648Vectors` | index.js:46 | the encoder meets the seven test vectors of RFC 4648 section 10 |
| `Request.Headers.constructor` | index.js:34-36 | a new header object holds exactly the given fields |
| `Request.Headers.Set` | index.js:46-47 | a property assignment on the header object updates that one field in place |
| `Request.RequestOptions.constructor` | index.js:6-12 | the initial record: the given headers, timeout, method and URL; `auth` undefined; no `qs`; no `json` |
| `Request.RequestMethod` | index.js:10 | the method is truthy and is `method` when truthy, else `type` when truthy, else "GET" |
| `Request.RequestUrl` | index.js:11 | the URL is `prefilterUrl(url)` when the hook is given, else `url` unchanged |
| `Request.JsonOf` | index.js:20-25 | a non-string value passes through unchanged; a string goes through `JSON.parse` |
| `Request.Placement` | index.js:15-27 | no payload iff `data` is falsy; query string iff `data` is truthy and the method is exactly "GET" (then `qs = data`); JSON body iff `data` is truthy and the method is anything else (then `json` is the parsed or plain data) |
| `Request.ConfigurationError` | index.js:29-31 | the error is truthy iff no `error` callback is given, and is then the "`options.error` callback has to be defined" Error |
| `Request.BasicAuthorization` | index.js:46 | the header value starts with "Basic " followed by a non-empty token |
| `Request.RequestAuth` | index.js:39-55 | exactly one mode applies: bearer iff `accessToken` is truthy (carrying it); `auth` unset iff a client id header is sent; user/pass iff neither token nor client id (carrying `clientId`/`clientSecret`, even undefined) |
| `Request.RequestHeaders` | index.js:33-37 | the header names are the caller's, plus `Accept-Language` for a truthy locale, plus `Authorization`/`Origin` for a client id header; caller values win over the locale and are kept except where the auth step writes; the locale fills `Accept-Language` only when the caller lacks it; the auth step writes the Basic credential and `origin` |
| `Request.PlaceData` | index.js:15-27 | step 1: `qs` and `json` are set exactly as `Placement` says |
| `Request.ApplyLocale` | index.js:33-37 | step 2: with a truthy locale the headers are a fresh object holding the merged fields; without one they stay the same object |
| `Request.ApplyAuth` | index.js:39-55 | step 3: `auth` becomes `RequestAuth`; the same header object gains `Authorization` and `Origin` exactly when a client id header is sent |
| `Request.Ajax` | index.js:5-55 | for any options, a missing bag included: a fresh record whose method, URL, timeout, `qs`, `json`, `auth` and headers are the specification functions' values, and the configuration error; the header object is the caller's own iff the caller gave headers and no locale, otherwise fresh; the caller's header object then holds the request's headers, and is otherwise unchanged |
| `Request.EmptyBag` | index.js:5 | `ajax()` builds a GET of an undefined URL, with no payload, `auth = {user: undefined, pass: undefined}`, no headers, and the configuration error |
| `Request.BasicCredentialRoundTrip` | index.js:46 | Base64-decoding the header token and then UTF-8-decoding it gives back exactly `String(apiClientId) + ":"` (RFC 7617 user-id and empty password) |
| `Request.FoobarCredential` | test/index.js:189-200 | the credential text for "foobar" is "foobar:", and its octets are the ASCII codes |
| `Request.ClientIdTestVector` | test/index.js:189-200 | the client id "foobar" gives "Basic Zm9vYmFyOg==" |
| `Request.BearerAddsNoAuthHeaders` | index.js:39-43 | with an access token, `auth` is the bearer, and `Authorization`/`Origin` are present only when the caller gave them, with the caller's values |
| `Request.CallerHeadersWinOverLocale` | index.js:33-37 | a caller-supplied `Accept-Language` beats the locale |
| `Request.CallerHeadersUntouched` | index.js:8 | with no locale and no client id header, the request's headers are exactly the caller's, so a shared header object is not changed |
| `Request.ClientIdHeaderAliasing` | index.js:8 | for client id "foobar": without a locale the caller's own header object gains `Authorization` and `Origin`; with the locale "de" it keeps only what it had |
| `Outcome.EffectiveStatus` | index.js:58 | the status is never 0: it is the response's code when there is a response with a non-zero code, else 404 |
| `Outcome.ModuleError` | index.js:60 | the effective error is the transport error when truthy, else the configuration error |
| `Outcome.Settle` | index.js:57-84 | at most one call besides `complete`; `complete` comes first iff supplied, with (effective error, status < 400, response, status), and never again; `error(e)` runs iff the effective error is truthy and `error` exists; otherwise `success(parsed body, response, status)` runs iff the status is < 400 and `success` exists; otherwise `error(undefined, response, status)` runs iff the status is ≥ 400 and `error` exists; nothing else runs, and never both `success` and `error` |
| `Outcome.TransportFailure` | index.js:58-66 | a transport error with no response: `complete(err, false, undefined, 404)` if supplied, then `error(err)` with one argument |
| `Outcome.HttpErrorStatus` | index.js:78-81 | a status of 400 or more with no transport error: `complete(undefined, false, response, status)` if supplied, then `error(undefined, response, status)` |
| `Outcome.SuccessfulResponse` | index.js:68-76 | a status below 400 with no transport error: `complete(undefined, true, response, status)` if supplied, then `success` with the parsed body |
| `Outcome.ConfigurationErrorOnlyReachesComplete` | index.js:29-31 | the configuration error never reaches `error`: any `error(e)` call passes the transport error |
| `Outcome.NoErrorCallback` | index.js:60-76 | with no `error` callback, no error callback runs; `success` runs iff it exists and the status is < 400; `complete` sees the transport error, else the configuration error |

## Left out

- The `request(...)` call itself (index.js:57): the network, the handle it returns, timeouts, sockets and TLS. `Ajax` returns the record and the configuration error. `Settle` takes the transport error, response and body as inputs. Where errors such as `ECONNREFUSED`, `ETIMEDOUT`, "socket hang up" and "no auth mechanism defined" come from is not modelled; they are opaque `ErrorObject` values.
- `request.debug = options.debug` (index.js:13): a global switch on a foreign module.
- `JSON.parse` (index.js:21, 71) is the parameter `parse`. The exception it throws on malformed text is not modelled.
- Asynchrony: the model does not show that `request` invokes its callback once, or when. `Settle` describes one invocation.
- Exceptions thrown by callbacks, and callbacks or `prefilterUrl` given as truthy non-functions (a TypeError in JavaScript). Callbacks are recorded only by whether they are supplied.
- A truthy options bag or `headers` value that is not an object.
- Non-integer numbers (NaN, fractions, -0) in option values and status codes. A response is reduced to its status code.
- Js.ToString: a number is written as its exact decimal numeral. JavaScript writes integers of magnitude 1e21 or more in exponent form ("1e+21"), and integers beyond 2^53 as the nearest double (`String(2**60)` is "1152921504606847000"). So for such a numeric `apiClientId` the model's Basic credential differs from the one index.js:46 builds.
- The string form of arrays and functions (`ToString` treats every non-Error object as a plain object). JavaScript strings are UTF-16, so a lone surrogate cannot occur in a Dafny string; its UTF-8 replacement character is not modelled.
- Utf8.Decode and Base64.Decode exist only as partners of the encoders. Utf8.Decode accepts some non-canonical inputs (overlong forms); Base64.Decode rejects non-zero pad bits. Only `Decode(Encode(x)) == Some(x)` is proved.
- Header names are compared exactly, as JavaScript object keys are. Case-insensitive HTTP header matching happens inside the client and is not modelled.
- The https-to-http rewrite and `allowHTTPS`: `index.js` does not implement them.
- Everything on the Backbone side (model sync, `toJSON`, `content-length`) and the Express test servers.
