# go-requests in Dafny

A verified model of the core of `go-requests`, a small Go HTTP client library
over `net/http`. It covers:

- **Header store** (`Headers.HeaderStore`). A string-to-string map with fluent
  setters that write in place.
- **Timeout settings** (`Timeouts.Timeout`). A value record whose getters treat
  a stored value equal to the 5-second default as "unset".
- **Query-parameter stores** (`QueryParams`, `HttpQueryParams`). Value-receiver
  structs that share one Go map.
- **Authorization value** (`Auth.Authorization`).
- **Response value** (`Responses.Response`). Includes the ordered,
  case-sensitive content-type classification and the `Unmarshal` dispatch.
- **Header merge** (`HttpHeaders.GetHeaders`) and **request-body encoder
  selection** (`BodyEncoding.GetBody`).
- **Builder and client lifecycle** (`Client.Builder`, `Client.GoHttpClient`).
  Covers `Build`, the client chosen on first use, the lazy query-parameter
  store, the timeout toggles, the re-enable rule after `Get`, and the request
  pipeline of `do`.

Go maps are references, so a map the source shares between values is a class,
`GoMaps.StringMap`, with one field `entries`. Writes through any handle are
seen through every other handle. A struct that is copied, like `queryParams`
with its value receivers, is a datatype holding that reference. Go's map
iteration order is unspecified. Every loop over a map therefore picks its next
key nondeterministically, and each contract holds for any order.

Some behaviour comes from the code rather than from the documentation:

- `Add` on query parameters overwrites instead of appending.
- `Reset` on query parameters changes nothing visible.
- The builder's timeout setters drop their result.
- Content-type classification is case-sensitive, and an unknown type such as
  "application/pdf" yields `NoContentType`.
- The `Basic` credential is `user:password` in plain text, not base64.

`requests/params.go` and `params.go` hold the same code and are modelled once,
by `QueryParams`. The same goes for `requests/authorization.go` and
`http/authorization.go` (`Auth`). The `requests` and `http` timeout records
share `Timeouts`. The `http` package's `Disable(bool)` is
`Timeouts.Timeout.SetDisabled`.

## Model

| member | source | states |
|---|---|---|
| Decimal.Itoa | requests/header.go:148-151 | `strconv.Itoa`: a minus sign exactly for negative numbers, then decimal digits with no leading zero |
| Decimal.ItoaRoundTrip | requests/header.go:148-151 | parsing the Content-Length text gives the number back |
| Decimal.ItoaInjective | requests/header.go:148-151 | distinct lengths give distinct Content-Length texts |
| Headers.HeaderStore.constructor | requests/header.go:338-340 | `NewHeaders()` is an empty store over a fresh map |
| Headers.HeaderStore.Set | requests/header.go:136-139 | the key gets the value, every other key is unchanged, the same store is returned |
| Headers.HeaderStore.SetContentType | requests/header.go:142-145 | writes exactly "Content-Type" and returns the same store |
| Headers.HeaderStore.SetContentLength | requests/header.go:148-151 | writes the decimal text of the count under "Content-Length" |
| Headers.HeaderStore.SetContentDisposition | requests/header.go:154-157 | writes exactly "Content-Disposition" |
| Headers.HeaderStore.SetContentEncoding | requests/header.go:160-163 | writes exactly "Content-Encoding" |
| Headers.HeaderStore.SetContentLanguage | requests/header.go:166-169 | writes exactly "Content-Language" |
| Headers.HeaderStore.SetContentLocation | requests/header.go:172-175 | writes exactly "Content-Location" |
| Headers.HeaderStore.SetContentMD5 | requests/header.go:178-181 | writes exactly "Content-MD5" |
| Headers.HeaderStore.SetContentRange | requests/header.go:183-186 | writes exactly "Content-Range" |
| Headers.HeaderStore.SetCookie | requests/header.go:189-192 | writes exactly "Cookie" |
| Headers.HeaderStore.SetDate | requests/header.go:195-198 | writes exactly "Date" |
| Headers.HeaderStore.SetETag | requests/header.go:201-204 | writes exactly "ETag" |
| Headers.HeaderStore.SetExpires | requests/header.go:207-210 | writes exactly "Expires" |
| Headers.HeaderStore.SetAccept | requests/header.go:213-216 | writes exactly "Accept" |
| Headers.HeaderStore.SetAcceptCharset | requests/header.go:219-222 | writes exactly "Accept-Charset" |
| Headers.HeaderStore.SetAcceptEncoding | requests/header.go:225-228 | writes exactly "Accept-Encoding" |
| Headers.HeaderStore.SetAcceptLanguage | requests/header.go:231-234 | writes exactly "Accept-Language" |
| Headers.HeaderStore.SetAcceptRanges | requests/header.go:237-240 | writes exactly "Accept-Ranges" |
| Headers.HeaderStore.SetAge | requests/header.go:243-246 | writes exactly "Age" |
| Headers.HeaderStore.SetAllow | requests/header.go:249-252 | writes exactly "Allow" |
| Headers.HeaderStore.SetCustom | requests/header.go:255-258 | the same effect as `Set` |
| Headers.HeaderStore.Get | requests/header.go:261-263 | the stored value, or "" for a missing key |
| Headers.HeaderStore.GetAllHttpHeaders | requests/header.go:266-272 | every entry under its canonical name as a one-element list |
| Headers.HeaderStore.Del | requests/header.go:275-278 | removes exactly that key; a missing key changes nothing |
| Headers.HeaderStore.Clone | requests/header.go:281-287 | a fresh store over a fresh map with equal entries, so later writes to either are not shared |
| Headers.HeaderStore.Over | requests/header.go:281-287 | the struct literal `&headerImpl{values: clone}`: a store over exactly the given map, shared with it |
| Headers.HeaderStore.IsEmpty | requests/header.go:291-293 | empty exactly when `Len() == 0` |
| Headers.HeaderStore.IsSet | requests/header.go:296-298 | set exactly when some key is stored |
| Headers.HeaderStore.String | requests/header.go:301-307 | every entry rendered once as `key: value`, in some order of the keys |
| Headers.HeaderStore.Values | requests/header.go:310-312 | the live map itself |
| Headers.HeaderStore.Keys | requests/header.go:315-321 | each stored key exactly once, `Len()` of them, in unspecified order |
| Headers.HeaderStore.Len | requests/header.go:324-326 | the number of distinct keys |
| Headers.HeaderStore.GetAll | requests/header.go:329-335 | every key mapped to the one-element list of its value |
| Headers.GetHeader | requests/header.go:345-350 | the first variadic header, or an empty one when there is none |
| Timeouts.NewTimeouts | requests/timeout.go:33-40 | both timeouts 5 s, 10 idle connections, enabled (also http/timeout.go:26-33) |
| Timeouts.Timeout.GetRequestTimeout | requests/timeout.go:89-97 | the stored value when enabled; when disabled, 0 for the 5 s default and the stored value otherwise (also http/timeout.go:47-55) |
| Timeouts.Timeout.GetResponseTimeout | requests/timeout.go:101-109 | the same rule for the response timeout (also http/timeout.go:59-67) |
| Timeouts.Timeout.GetMaxIdleConnections | requests/timeout.go:117-122 | always the stored field, 0 and negative values included (also http/timeout.go:75-80) |
| Timeouts.Timeout.Disable | requests/timeout.go:130-133 | a copy with the flag set and every other field kept |
| Timeouts.Timeout.Enable | requests/timeout.go:143-146 | a copy with the flag cleared and every other field kept |
| Timeouts.Timeout.SetDisabled | http/timeout.go:88-91 | a copy whose flag is exactly the argument, nothing else changed |
| Timeouts.Timeout.SetRequestTimeout | requests/timeout.go:158-161 | a copy with only the request timeout replaced (also http/timeout.go:106-109) |
| Timeouts.Timeout.SetResponseTimeout | requests/timeout.go:176-179 | a copy with only the response timeout replaced (also http/timeout.go:111-114) |
| Timeouts.Timeout.SetMaxIdleConnections | requests/timeout.go:192-195 | a copy with only the idle-connection count replaced (also http/timeout.go:116-119) |
| Timeouts.RequestTimeoutAfterSet | requests/timeout.go:89-97 | after setting a non-default request timeout it is effective even when disabled; the default reads 0 exactly when disabled |
| Timeouts.ResponseTimeoutAfterSet | requests/timeout.go:101-109 | the same for the response timeout |
| Timeouts.DisabledTimeoutIsZero | requests/timeout.go:89-109 | disabling makes an effective timeout 0 exactly when its stored value is 0 or the default |
| Timeouts.DisableEnableLaws | requests/timeout.go:130-146 | `Disable` is idempotent, `Enable` undoes it on an enabled record, and `Disable(b)` of the `http` package is one or the other |
| Timeouts.SettersCommute | requests/timeout.go:158-195 | each setter changes only its own field: the three setters commute pairwise, and each commutes with `Disable` and with `Enable` |
| QueryParams.Store.Add | params.go:34-39 | overwrites the value, exactly like `Set`, and the write is seen through every copy of the store (also requests/params.go:38-43) |
| QueryParams.Store.Set | params.go:42-47 | the key gets the value and the write is seen through every copy (also requests/params.go:45-50) |
| QueryParams.Store.Get | params.go:50-58 | the stored value, or "" for a missing key (also requests/params.go:52-60) |
| QueryParams.Store.Del | params.go:61-65 | removes exactly that key, seen through every copy (also requests/params.go:62-66) |
| QueryParams.Store.Values | params.go:68-70 | the live shared map |
| QueryParams.Store.Clone | params.go:73-82 | a fresh map holding, for each key with a non-empty value, the value's last character only (also requests/params.go:72-81) |
| QueryParams.CloneKeepsLastCharacter | params.go:73-82 | the clone of {"q": "go", "empty": ""} is {"q": "o"}, not a copy |
| QueryParams.Store.Reset | params.go:85-88 | returns a store over a fresh empty map; the receiver's map is not touched (also requests/params.go:83-86) |
| QueryParams.Store.Len | params.go:91-93 | the number of keys |
| QueryParams.NewQueryParams | params.go:96-100 | an empty store over a fresh map (also requests/params.go:92-96, http/params.go:85-89) |
| QueryParams.CopyValues | params.go:72-82 | what `Clone` evidently intends: a fresh map with the same entries |
| HttpQueryParams.Add | http/params.go:37-41 | overwrites, seen through the caller's store |
| HttpQueryParams.Set | http/params.go:43-48 | overwrites, seen through the caller's store |
| HttpQueryParams.Del | http/params.go:60-64 | removes exactly that key |
| HttpQueryParams.Clone | http/params.go:71-79 | builds a store and drops it: the caller's map is unchanged |
| HttpQueryParams.Reset | http/params.go:81-83 | rebinds a copy: the caller's map is unchanged |
| Auth.Authorization.constructor | requests/authorization.go:98-100 | `NewAuthorization()` has no type and no value, is empty and neither Basic nor Bearer (also http/authorization.go:94-96) |
| Auth.Authorization.Bearer | requests/authorization.go:49-53 | type Bearer, value the token (the empty token too), both fields overwritten, same object returned, now set |
| Auth.Authorization.Basic | requests/authorization.go:56-60 | type Basic, value `user:password` unencoded; splitting at the first ':' gives both parts back when the user has no ':' |
| Auth.Authorization.String | requests/authorization.go:63-65 | type and value joined by one space; splitting at the first space gives both back when the type has no space |
| Auth.Authorization.Type | requests/authorization.go:68-70 | the type, which splitting the header text at its first space gives back when it has no space |
| Auth.Authorization.Value | requests/authorization.go:73-75 | the value, the part of the header text after the type and one space |
| Auth.Authorization.IsBasic | requests/authorization.go:78-80 | a test of the type alone; when it holds, the header text starts with "Basic " |
| Auth.Authorization.IsBearer | requests/authorization.go:83-85 | a test of the type alone; when it holds, the header text starts with "Bearer " |
| Auth.Authorization.IsEmpty | requests/authorization.go:88-90 | empty exactly when the header text is a lone space, that is, neither type nor value |
| Auth.Authorization.IsSet | requests/authorization.go:93-95 | set exactly when the type or the value is non-empty |
| Auth.KindsExclusive | requests/authorization.go:78-85 | never both Basic and Bearer, and either kind is set |
| Auth.SplitSchemeRoundTrip | requests/authorization.go:63-65 | the scheme and credentials of the header text can be recovered |
| Auth.EmptyCredentials | http/authorization.go:45-56 | `Bearer("")` gives "Bearer " and `Basic("", "")` gives "Basic :", both set |
| Auth.BasicTest | http/authorization.go:59-61 | a Basic value "test" reads "Basic test" |
| Responses.Contains | response.go:74-83 | `strings.Contains`: true exactly when the pattern occurs at some position |
| Responses.GetContentType | response.go:73-87 | one of the five constants: JSON if the JSON type occurs, else XML, else YAML, else text, else "" (also http/response.go:68-82) |
| Responses.Response.StatusCode | response.go:48-50 | the status code the response was received with (also http/response.go:44-46) |
| Responses.Response.Header | response.go:53-55 | the received header with its value lists (also http/response.go:49-51) |
| Responses.Response.Bytes | response.go:58-60 | the body as read (`Body()` at http/response.go:54-56) |
| Responses.Response.Status | response.go:63-65 | the received status line (also http/response.go:59-61) |
| Responses.Response.String | response.go:68-70 | the body as a string: the same bytes as `Bytes()` (also http/response.go:64-66) |
| Responses.Response.ContentType | response.go:136-138 | the classification, "" exactly when none of the four types occurs (also http/response.go:129-131) |
| Responses.Response.UnmarshalText | response.go:105-110 | the target's `UnmarshalText` when it has one, else `UnsupportedContentType` |
| Responses.Response.Unmarshal | response.go:118-134 | class JSON, XML and YAML call exactly the JSON, XML and YAML decoder, text calls `unmarshalText`, "" is `NoContentType`; a decoder's error is passed back unchanged; `UnsupportedContentType` only for text with a target that cannot decode text |
| Responses.Response.UnmarshalUnchecked | http/response.go:100-127 | given a text-capable target for text, the same dispatch, rejecting exactly the unclassified types |
| Responses.UnmarshalDispatch | response.go:118-134 | the whole table: JSON decoding exactly when the JSON type occurs, XML, YAML and text decoding exactly for their classes (text only with a fit target), `NoContentType` exactly for class "", `UnsupportedContentType` exactly for text with an unfit target |
| Responses.UnrecognisedTypeIsNoContentType | response.go:128-133 | a type with none of the four substrings yields `NoContentType`, never the unreachable default |
| Responses.JsonExamples | response.go:74-76 | "application/json; charset=utf-8" is JSON, and so is a value listing XML before JSON |
| Responses.UpperCaseJsonIsNone | response.go:74 | "Application/JSON" is "": the test is case-sensitive |
| Responses.PdfIsNone | response.go:73-87 | "application/pdf" is "" |
| BodyEncoding.ToLower | http/core.go:19 | `strings.ToLower`, character by character, length kept |
| BodyEncoding.SelectEncoder | http/core.go:19-30 | XML exactly when the type equals "application/xml" ignoring case, JSON otherwise |
| BodyEncoding.GetBody | http/core.go:15-31 | a nil body is no body and no error; otherwise the selected marshaller's bytes, or its error unchanged |
| BodyEncoding.SelectEncoderIgnoresCase | http/core.go:19 | types that lower-case alike select the same encoder |
| BodyEncoding.UpperCaseXml | http/core.go:19-22 | "APPLICATION/XML" selects XML |
| BodyEncoding.JsonFallbackExamples | http/core.go:28-29 | "application/xml; charset=utf-8", "text/xml" and "" select JSON: the match is exact |
| HttpHeaders.SetEach | core.go:88-92 | `res.Set(name, value[0])` for every name with a non-empty list, in any order |
| HttpHeaders.GetHeaders | core.go:85-99 | builder headers first, then per-call ones over them, first values only, empty lists skipped; with canonical names exactly `Merged` (also http/core.go:58-73) |
| HttpHeaders.MergeIsMerged | core.go:85-99 | for canonical names every result of the two loops equals the reference merge, whatever the iteration order |
| HttpHeaders.MergedOverrides | core.go:94-98 | a per-call header with values overrides the builder's, keeping only its first value |
| HttpHeaders.MergedKeepsBase | core.go:88-92 | a builder header survives unless the call overrides it |
| HttpHeaders.MergedSkipsEmptyLists | core.go:95 | a per-call header with an empty list contributes nothing and removes nothing |
| HttpHeaders.MergedWithoutCallHeaders | core.go:94 | with no per-call headers the result is the builder's headers |
| HttpHeaders.MergeExamples | http/core_test.go:175-177 | the nil, empty and "Accept" cases of the test suite |
| Client.SettingsFrom | requests/client.go:118-127 | a constructed client takes the effective request timeout (client and dial), the idle count and the effective response timeout |
| Client.WithParams | core.go:46-51 | every stored parameter is appended after the URL's own values for its key |
| Client.AddEach | core.go:48-50 | the loop of `q.Add` calls builds exactly `WithParams`, whatever the order |
| Client.WithNoParams | core.go:46-53 | with no stored parameters the query is left as it is |
| Client.FirstValue | core.go:79 | `Header.Get`: the first value under the name, or "" |
| Client.Outcome | core.go:62-81 | the round-trip error; the wrapped body-read error; or a response whose content type is the first "Content-Type" value |
| Client.ReceivedAccessors | response.go:48-70 | the accessors of a received response return its status code, status line, header and body as delivered, `String()` the same bytes, and `ContentType()` the classification of the first "Content-Type" value |
| Client.StartAsWritten | core.go:40-57 | the start of `do` as written: it panics exactly when a parameter is stored and the request failed, errors exactly when the request failed with none stored, and otherwise proceeds with the parameters added |
| Client.StartChecked | core.go:40-57 | with the error checked first: never panics, "unable to create request" exactly when the request fails |
| Client.StartAsWrittenPanics | core.go:46-57 | the input that panics as written and errors when checked |
| Client.StartOrdersAgree | core.go:46-57 | the written and the checked order agree exactly when the request is created or no parameter is stored |
| Client.AfterGet | requests/client.go:44-47 | the timeouts after `Get`: unchanged or enabled, and still disabled exactly when they were disabled and the effective request timeout read non-zero |
| Client.GetReenablesTimeouts | requests/client.go:44-47 | after `Get`: the effective request timeout is 0 exactly when 0 is stored; a stored 5 s default always leaves the client enabled; a disabled client whose stored request timeout is neither the default nor 0 stays disabled; only the flag changes |
| Client.Builder.constructor | builder.go:93-100 | `NewBuilder()`: default timeouts, empty headers, no client |
| Client.Builder.Headers | builder.go:43-45 | the builder's one header store, the same on every call |
| Client.Builder.GetMaxIdleConnections | builder.go:49-51 | the stored idle-connection count |
| Client.Builder.SetRequestTimeout | builder.go:58-61 | returns the builder's timeouts unchanged and changes nothing: the new value is dropped |
| Client.Builder.SetResponseTimeout | builder.go:67-70 | returns the builder's timeouts unchanged and changes nothing |
| Client.Builder.SetMaxIdleConnections | builder.go:36-39 | returns the builder's timeouts unchanged and changes nothing |
| Client.Builder.SetHTTPClient | builder.go:73-78 | a non-nil client replaces the custom client; nil leaves it |
| Client.Builder.Build | builder.go:82-89 | the first call makes a client pointing at this builder; every later call returns that client |
| Client.GoHttpClient.QueryParams | requests/client.go:20-25 | an empty store on the first call, the same store afterwards |
| Client.GoHttpClient.DisableTimeouts | requests/client.go:103-105 | the builder's timeouts become their disabled copy |
| Client.GoHttpClient.EnableTimeouts | requests/client.go:107-109 | the builder's timeouts become their enabled copy |
| Client.GoHttpClient.Headers | requests/client.go:134-136 | the builder's header store |
| Client.GoHttpClient.GetClient | requests/client.go:112-131 | fixed on the first call: the custom client as it is, else a new client from the effective settings then; the same client afterwards |
| Client.GoHttpClient.GetHeaders | core.go:85-99 | the merge of the builder's headers, as one-element lists, with the per-call headers |
| Client.GoHttpClient.AddParams | core.go:46-53 | the query with every stored parameter added; the store keeps its parameters |
| Client.GoHttpClient.PrepareRequest | core.go:39-59 | "unable to create request" exactly when the request fails; otherwise method, URL, body, merged headers and the query `StartChecked` gives |
| Client.GoHttpClient.Do | core.go:36-82 | the query store exists afterwards (the old one or a new empty one); a failed request gives "unable to create request" with the client not yet chosen; otherwise a request with the verb, URL, body, merged headers and the query plus every stored parameter goes through the client `getClient` fixes (the custom one, or one from the timeouts of that moment), and the result is that exchange's outcome |
| Client.GoHttpClient.Get | requests/client.go:42-52 | `do` of a "GET" with no body and the first variadic header, with all of `Do`'s guarantees about the request sent, the client and the result; then the re-enable rule on the builder's timeouts whatever the outcome, the builder's clients untouched |
| Client.GoHttpClient.Post | requests/client.go:54-60 | `do` of a "POST" with the given body and the first variadic header, with all of `Do`'s guarantees about the request sent, the client and the result; the timeouts are left alone |
| Client.GoHttpClient.Put | requests/client.go:62-69 | `do` of a "PUT" with the given body and the first variadic header, with all of `Do`'s guarantees about the request sent, the client and the result; the timeouts are left alone |
| Client.GoHttpClient.Delete | requests/client.go:71-77 | `do` of a "DELETE" with the given body and the first variadic header, with all of `Do`'s guarantees about the request sent, the client and the result; the timeouts are left alone |
| Client.GoHttpClient.Patch | requests/client.go:79-85 | `do` of a "PATCH" with the given body and the first variadic header, with all of `Do`'s guarantees about the request sent, the client and the result; the timeouts are left alone |
| Client.GoHttpClient.Head | requests/client.go:87-93 | `do` of a "HEAD" with the given body and the first variadic header, with all of `Do`'s guarantees about the request sent, the client and the result; the timeouts are left alone |
| Client.BuildTwice | builder_test.go:121-142 | building twice gives the same client, which belongs to the builder |
| Client.FiveSetters | core_test.go:8-38 | five chained setters on `Headers()` land in one store: `Len` 5, and X-Request-ID, Content-Type, User-Agent, Accept-Encoding and Accept-Charset read back the values set |
| Client.ClientFixedOnFirstUse | requests/client.go:112-131 | a client made while timeouts are disabled keeps its zero timeouts after they are enabled again |

## Left out

- The network. Parsing the URL (`http.NewRequest`), the round trip (`Client.Do`) and reading the body are parameters of `Client.Environment`. Closing the body and building the `http.Transport` and `net.Dialer` are not modelled.
- The JSON, XML and YAML codecs and the target's `UnmarshalText` are parameters: `Responses.Decoder` and the marshallers of `BodyEncoding.GetBody`. The `http` package's float-encoding test is not modelled.
- `http.Header.Set` name canonicalisation is the parameter `canon`. `Client.Outcome` reads "Content-Type" without canonicalising, as headers received from `net/http` already are.
- `url.Values.Encode` and the re-parsing of `RawQuery` are not modelled. The query is kept as a map of value lists.
- Concurrency. The `sync.Once` in `getClient` is a flag, and races are not modelled.
- Map iteration order. `Headers.HeaderStore.Keys` and `Headers.HeaderStore.String` promise no order, which leaves one http/header_test.go case order-dependent.
- Durations and counts are unbounded integers. `int64` overflow does not arise in the code.
- `Decimal.Itoa` renders an unbounded integer. Go's `int` width is not modelled.
- Strings are sequences of characters, one per rune. `BodyEncoding.LowerChar` lowers only what can match an ASCII constant: ASCII capitals, U+0130 and U+212A. Every other character stays as it is, which does not change the outcome of the comparison.
- `Responses.Response.UnmarshalUnchecked` requires a text-capable target for a text response. In the `http` package the unchecked type assertion panics instead.
- A nil header store on the builder (one test builds one by hand) is not modelled. `Client.Builder.header` is always a store.
- The unused `State` channel of the builder and all console printing are not modelled.
- `http/client.go` is not part of this model. It calls `Disable()` and `Enable()`, which its package's timeout record does not declare, and every verb sends `GET`.
- `http/builder.go` is not part of this model. It redeclares the timeout setters and names undeclared identifiers.
- `http/header.go` is not part of this model. It is a two-method wrapper whose value-receiver `SetHeaders` has no effect.
- The two error constructors of `requests/errors.go` and `http/errors.go` are `Responses.ContentTypeError`.
- The example programs and the live-endpoint tests are not modelled.
- Client.GoHttpClient.Do: follows the checked order of `Client.StartChecked` rather than the panicking order of the code. The order as written is `Client.StartAsWritten` (see Findings). `Get`, `Post`, `Put`, `Delete`, `Patch` and `Head` go through `Do` and inherit the checked order, where the code panics for a stored parameter and a URL `http.NewRequest` rejects.

## Findings

| source | as written | input that shows it | evidently intended | confidence | as-written member | corrected member |
|---|---|---|---|---|---|---|
| core.go:46-57 | the query step reads `req.URL` before the error of `http.NewRequest` is checked | a stored query parameter `q=go` and a URL that `http.NewRequest` rejects, such as `http://example.com/%zz`: `req` is nil and the query step panics | return "unable to create request", as the `http` package's `do` and the code without parameters do | not executed | Client.StartAsWritten (shown by Client.StartAsWrittenPanics) | Client.StartChecked, used by Client.GoHttpClient.PrepareRequest |
| params.go:73-82 | `Clone` ranges over the characters of each value and `Add`s each one, so each character overwrites the last | {"q": "go", "empty": ""} clones to {"q": "o"} | a fresh store with the same entries | not executed | QueryParams.Store.Clone (shown by QueryParams.CloneKeepsLastCharacter) | QueryParams.CopyValues |
