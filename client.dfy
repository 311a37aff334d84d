/** The builder (`builderImpl`) and the client it builds (`goHTTPClient`),
    with the request pipeline of `do`. The network, URL parsing and header
    name canonicalisation are the parameters of an `Environment`; what is
    modelled is which settings, headers, query and client each step uses
    and which state each step changes. */
module Client {
  import opened Wrappers
  import opened Timeouts
  import opened HttpHeaders
  import HeaderStores = Headers
  import Params = QueryParams
  import Responses

  type byte = bv8

  /** The settings of the `*http.Client` that `getClient` constructs:
      client timeout, idle connections per host, response header timeout
      and dial timeout. */
  datatype ClientSettings = ClientSettings(
    timeout: int,
    maxIdleConnsPerHost: int,
    responseHeaderTimeout: int,
    dialTimeout: int)

  /** An `*http.Client`; its identity matters, since a custom client is used
      as it is. */
  class HttpClient {
    const settings: ClientSettings

    constructor (settings: ClientSettings)
      ensures this.settings == settings
    {
      this.settings := settings;
    }
  }

  /** The client `getClient` builds from the effective timeouts at that time. */
  function SettingsFrom(t: Timeout): (s: ClientSettings)
    ensures s.timeout == s.dialTimeout == t.GetRequestTimeout()
    ensures s.maxIdleConnsPerHost == t.maxIdleConnections
    ensures s.responseHeaderTimeout == t.GetResponseTimeout()
    ensures !t.disableTimeouts ==> s.timeout == t.requestTimeout && s.responseHeaderTimeout == t.responseTimeout
  {
    ClientSettings(t.GetRequestTimeout(), t.GetMaxIdleConnections(), t.GetResponseTimeout(), t.GetRequestTimeout())
  }

  /** The query of a request URL (`url.Values`). */
  type Values = map<string, seq<string>>

  /** A request as handed to the round trip. */
  datatype Request = Request(verb: string, url: string, query: Values, header: Header, body: Option<seq<byte>>)

  /** What the round trip gave: an error from `Client.Do`, an error from
      reading the body, or a status, headers and body. */
  datatype Exchange =
    | Failed(err: string)
    | BodyUnreadable(readErr: string)
    | Received(statusCode: int, status: string, header: Header, body: seq<byte>)

  /** What `do` depends on and does not compute: header name
      canonicalisation, `http.NewRequest` (the query of the parsed URL, or
      None when it fails) and the round trip of a client. */
  datatype Environment = Environment(
    canon: string -> string,
    newRequest: (string, string) -> Option<Values>,
    roundTrip: (ClientSettings, Request) -> Exchange)

  const CreateRequestError := "unable to create request"
  const ReadBodyErrorPrefix := "unable to read response body. Error: "

  /** The query after every stored parameter has been `Add`ed: each value
      goes after the values the URL already had for its key. */
  function WithParams(query: Values, params: map<string, string>): (q: Values)
    ensures q.Keys == query.Keys + params.Keys
    ensures forall k :: k in params ==> q[k] == (if k in query then query[k] else []) + [params[k]]
    ensures forall k :: k in query && k !in params ==> q[k] == query[k]
  {
    map k | k in query.Keys + params.Keys ::
      (if k in query then query[k] else []) + (if k in params then [params[k]] else [])
  }

  /** The parameters restricted to `keys`. */
  function Restrict(params: map<string, string>, keys: set<string>): map<string, string> {
    map k | k in params && k in keys :: params[k]
  }

  /** The loop of the query step: `q.Add(key, value)` for every stored
      parameter, in whatever order the map yields them. */
  method AddEach(query: Values, params: map<string, string>) returns (q: Values)
    ensures q == WithParams(query, params)
  {
    q := query;
    var todo := params.Keys;
    ghost var done: set<string> := {};
    while todo != {}
      invariant todo + done == params.Keys && todo !! done
      invariant q == WithParams(query, Restrict(params, done))
      decreases todo
    {
      var key :| key in todo;
      var value := params[key];
      q := q[key := (if key in q then q[key] else []) + [value]];
      todo := todo - {key};
      done := done + {key};
      assert Restrict(params, done) == Restrict(params, done - {key})[key := value];
    }
    assert Restrict(params, done) == params;
  }

  /** Adding no parameters leaves the query as it is. */
  lemma WithNoParams(query: Values)
    ensures WithParams(query, map[]) == query
  {
  }

  /** `http.Header.Get`: the first value under the name, or "". */
  function FirstValue(h: Header, name: string): (v: string)
    ensures name in h && |h[name]| > 0 ==> v == h[name][0]
    ensures name !in h || |h[name]| == 0 ==> v == ""
  {
    if name in h && |h[name]| > 0 then h[name][0] else ""
  }

  /** The end of `do`: the error of the round trip, the wrapped error of
      reading the body, or a `Response` whose content type is the first
      "Content-Type" value. */
  function Outcome(e: Exchange): (r: Result<Responses.Response, string>)
    ensures e.Failed? ==> r == Failure(e.err)
    ensures e.BodyUnreadable? ==> r == Failure(ReadBodyErrorPrefix + e.readErr)
    ensures e.Received? ==>
      && r.Success? && r.value.statusCode == e.statusCode && r.value.status == e.status
      && r.value.header == e.header && r.value.body == e.body
      && r.value.contentType == FirstValue(e.header, "Content-Type")
  {
    match e
    case Failed(err) => Failure(err)
    case BodyUnreadable(err) => Failure(ReadBodyErrorPrefix + err)
    case Received(code, status, header, body) =>
      Success(Responses.Response(code, status, header, body, FirstValue(header, "Content-Type")))
  }

  /** The accessors of a received response give back what the round trip
      delivered, and its content type is the classification of the first
      "Content-Type" value. */
  lemma ReceivedAccessors(e: Exchange)
    requires e.Received?
    ensures var r := Outcome(e).value;
      && r.StatusCode() == e.statusCode && r.Status() == e.status
      && r.Header() == e.header && r.Bytes() == e.body && r.String() == e.body
      && r.ContentType() == Responses.GetContentType(FirstValue(e.header, "Content-Type"))
  {
  }

  /** How the start of `do` ends: a nil-pointer panic, the
      "unable to create request" error, or a request with this query. */
  datatype Start = Panics | CreateError | Proceeds(query: Values)

  /** The start of `do` as written: the query step runs before the error
      of `http.NewRequest` is looked at, and reads `req.URL` of a request
      that is nil when that call failed. */
  function StartAsWritten(parsed: Option<Values>, params: map<string, string>): (s: Start)
    ensures s == Panics <==> parsed.None? && |params| > 0
    ensures s == CreateError <==> parsed.None? && |params| == 0
    ensures parsed.Some? ==> s == Proceeds(WithParams(parsed.value, params))
  {
    if |params| > 0 then
      if parsed.None? then Panics else Proceeds(WithParams(parsed.value, params))
    else if parsed.None? then CreateError
    else
      assert params == map[];
      WithNoParams(parsed.value);
      Proceeds(parsed.value)
  }

  /** The start of `do` with the error looked at first, as its comment and
      the `http` package's `do` intend. */
  function StartChecked(parsed: Option<Values>, params: map<string, string>): (s: Start)
    ensures s != Panics
    ensures s == CreateError <==> parsed.None?
    ensures parsed.Some? ==> s == Proceeds(WithParams(parsed.value, params))
  {
    if parsed.None? then CreateError
    else if |params| > 0 then Proceeds(WithParams(parsed.value, params))
    else
      assert params == map[];
      WithNoParams(parsed.value);
      Proceeds(parsed.value)
  }

  /** With a stored parameter and a URL `http.NewRequest` rejects, the
      code as written panics where the checked order reports the error. */
  lemma StartAsWrittenPanics()
    ensures StartAsWritten(None, map["q" := "go"]) == Panics
    ensures StartChecked(None, map["q" := "go"]) == CreateError
  {
  }

  /** The two orders agree exactly when the request is created or no
      parameter is stored. */
  lemma StartOrdersAgree(parsed: Option<Values>, params: map<string, string>)
    ensures StartAsWritten(parsed, params) == StartChecked(parsed, params) <==> parsed.Some? || |params| == 0
  {
  }

  /** The timeouts after `Get`: re-enabled when the effective request
      timeout read 0, otherwise left as they were. */
  function AfterGet(t: Timeout): (a: Timeout)
    ensures a == t || a == t.Enable()
    ensures a.disableTimeouts <==> t.disableTimeouts && t.GetRequestTimeout() != 0
  {
    if t.GetRequestTimeout() == 0 then t.Enable() else t
  }

  /** After `Get` the effective request timeout is 0 exactly when 0 is the
      stored value; a disabled client with a configured non-default request
      timeout stays disabled; nothing but the flag ever changes. */
  lemma GetReenablesTimeouts(t: Timeout)
    ensures AfterGet(t).GetRequestTimeout() == 0 <==> t.requestTimeout == 0
    ensures t.requestTimeout == DefaultRequestTimeout ==> !AfterGet(t).disableTimeouts
    ensures t.disableTimeouts && t.requestTimeout != DefaultRequestTimeout && t.requestTimeout != 0 ==>
      AfterGet(t) == t
    ensures AfterGet(t) == t.(disableTimeouts := AfterGet(t).disableTimeouts)
  {
  }

  /** `builderImpl`. */
  class Builder {
    const header: HeaderStores.HeaderStore
    var timeout: Timeout
    var client: GoHttpClient?
    var cstClient: HttpClient?

    /** A built client belongs to this builder. */
    predicate Valid()
      reads this, client
    {
      client != null ==> client.builder == this
    }

    /** `NewBuilder()`: default timeouts, empty headers, no client yet. */
    constructor ()
      ensures fresh(header) && fresh(header.values) && header.values.entries == map[]
      ensures timeout == NewTimeouts() && client == null && cstClient == null && Valid()
    {
      header := new HeaderStores.HeaderStore();
      timeout := NewTimeouts();
      client := null;
      cstClient := null;
    }

    /** `Headers()`: always the same store. */
    function Headers(): (h: HeaderStores.HeaderStore)
      ensures h == header
    {
      header
    }

    /** `GetMaxIdleConnections()` */
    function GetMaxIdleConnections(): (n: int)
      reads this
      ensures n == timeout.maxIdleConnections
    {
      timeout.GetMaxIdleConnections()
    }

    /** `SetRequestTimeout(d)`: the updated copy is dropped, so the builder's
        timeouts come back as they were and nothing changes. */
    method SetRequestTimeout(d: int) returns (t: Timeout)
      ensures t == timeout
    {
      var _ := timeout.SetRequestTimeout(d);
      t := timeout;
    }

    /** `SetResponseTimeout(d)`: dropped as well. */
    method SetResponseTimeout(d: int) returns (t: Timeout)
      ensures t == timeout
    {
      var _ := timeout.SetResponseTimeout(d);
      t := timeout;
    }

    /** `SetMaxIdleConnections(n)`: dropped as well. */
    method SetMaxIdleConnections(n: int) returns (t: Timeout)
      ensures t == timeout
    {
      var _ := timeout.SetMaxIdleConnections(n);
      t := timeout;
    }

    /** `SetHTTPClient(c)`: a nil client is ignored. */
    method SetHTTPClient(c: HttpClient?)
      modifies this
      ensures cstClient == if c != null then c else old(cstClient)
      ensures timeout == old(timeout) && client == old(client)
      ensures old(Valid()) ==> Valid()
    {
      if c != null {
        cstClient := c;
      }
    }

    /** `Build()`: the client is made on the first call, points back at this
        builder, and is returned by every later call. */
    method Build() returns (c: GoHttpClient)
      requires Valid()
      modifies this
      ensures old(client) != null ==> c == old(client)
      ensures old(client) == null ==> fresh(c) && c.Valid() && c.client == null && !c.clientOnce && c.queryParams.None?
      ensures client == c && Valid()
      ensures timeout == old(timeout) && cstClient == old(cstClient)
    {
      if client == null {
        client := new GoHttpClient(this);
      }
      c := client;
    }
  }

  /** `goHTTPClient`. The `sync.Once` guarding the client is the flag
      `clientOnce`; a nil query-parameter store is `None`. */
  class GoHttpClient {
    const builder: Builder
    var client: HttpClient?
    var clientOnce: bool
    var queryParams: Option<Params.Store>

    /** Once the client has been chosen it is there. */
    predicate Valid()
      reads this
    {
      clientOnce ==> client != null
    }

    /** The struct literal `&goHTTPClient{builder: b}`. */
    constructor (b: Builder)
      ensures builder == b && client == null && !clientOnce && queryParams.None? && Valid()
    {
      builder := b;
      client := null;
      clientOnce := false;
      queryParams := None;
    }

    /** `QueryParams()`: created empty on the first call, the same store after. */
    method QueryParams() returns (q: Params.Store)
      modifies this
      ensures old(queryParams).Some? ==> q == old(queryParams).value
      ensures old(queryParams).None? ==> fresh(q.values) && q.values.entries == map[]
      ensures queryParams == Some(q)
      ensures client == old(client) && clientOnce == old(clientOnce)
    {
      if queryParams.None? {
        var created := Params.NewQueryParams();
        queryParams := Some(created);
      }
      q := queryParams.value;
    }

    /** `DisableTimeouts()`: the builder's timeouts are replaced by the disabled copy. */
    method DisableTimeouts()
      modifies builder
      ensures builder.timeout == old(builder.timeout).Disable()
      ensures builder.client == old(builder.client) && builder.cstClient == old(builder.cstClient)
    {
      builder.timeout := builder.timeout.Disable();
    }

    /** `EnableTimeouts()`: the builder's timeouts are replaced by the enabled copy. */
    method EnableTimeouts()
      modifies builder
      ensures builder.timeout == old(builder.timeout).Enable()
      ensures builder.client == old(builder.client) && builder.cstClient == old(builder.cstClient)
    {
      builder.timeout := builder.timeout.Enable();
    }

    /** `Headers()`: the builder's store. */
    function Headers(): (h: HeaderStores.HeaderStore)
      ensures h == builder.header
    {
      builder.Headers()
    }

    /** `getClient()`: on the first call, the builder's custom client if it
        has one, else a new client from the effective timeouts of that
        moment; every later call returns that same client. */
    method GetClient() returns (h: HttpClient)
      requires Valid()
      modifies this
      ensures Valid() && clientOnce && client == h
      ensures old(clientOnce) ==> h == old(client)
      ensures !old(clientOnce) && builder.cstClient != null ==> h == builder.cstClient
      ensures !old(clientOnce) && builder.cstClient == null ==> fresh(h) && h.settings == SettingsFrom(builder.timeout)
      ensures queryParams == old(queryParams)
    {
      if !clientOnce {
        if builder.cstClient != null {
          client := builder.cstClient;
        } else {
          client := new HttpClient(SettingsFrom(builder.timeout));
        }
        clientOnce := true;
      }
      h := client;
    }

    /** `getHeaders(headers)`: the builder's headers, then the per-call ones
        over them, in a fresh header. */
    method GetHeaders(headers: Header, canon: string -> string) returns (res: Header)
      ensures IsMergeOf(res, HeaderStores.Singletons(builder.header.values.entries), headers, canon)
    {
      var base := builder.header.GetAll();
      res := HttpHeaders.GetHeaders(base, headers, canon);
    }

    /** The query step of `do`: when the store holds parameters, each is
        added to the URL's query, and the store's `Reset` acts on a copy. */
    static method AddParams(query: Values, params: Params.Store) returns (q: Values)
      ensures q == WithParams(query, params.values.entries)
    {
      q := query;
      if params.Len() > 0 {
        q := AddEach(query, params.Values().entries);
        var _ := params.Reset();
      } else {
        assert params.values.entries == map[];
        WithNoParams(query);
      }
    }

    /** The part of `do` before the round trip, with the request error
        looked at before the query step: the merged headers, then
        `http.NewRequest`, then every stored query parameter added to the
        URL's query. The `Reset` that follows acts on a copy of the store,
        so the store keeps its parameters. */
    method PrepareRequest(verb: string, url: string, headers: Header, body: Option<seq<byte>>, env: Environment)
      returns (req: Option<Request>)
      requires Valid()
      modifies this
      ensures Valid() && queryParams.Some? && client == old(client) && clientOnce == old(clientOnce)
      ensures old(queryParams).Some? ==> queryParams == old(queryParams)
      ensures old(queryParams).None? ==> queryParams.value.values.entries == map[]
      ensures req.None? <==> env.newRequest(verb, url).None?
      ensures req.None? ==> StartChecked(env.newRequest(verb, url), queryParams.value.values.entries) == CreateError
      ensures req.Some? ==> StartChecked(env.newRequest(verb, url), queryParams.value.values.entries) == Proceeds(req.value.query)
      ensures req.Some? ==>
        && req.value.verb == verb && req.value.url == url && req.value.body == body
        && req.value.query == WithParams(env.newRequest(verb, url).value, queryParams.value.values.entries)
        && IsMergeOf(req.value.header, HeaderStores.Singletons(builder.header.values.entries), headers, env.canon)
    {
      var header := GetHeaders(headers, env.canon);
      var parsed := env.newRequest(verb, url);
      var params := QueryParams();
      if parsed.None? {
        return None;
      }
      var query := AddParams(parsed.value, params);
      req := Some(Request(verb, url, query, header, body));
    }

    /** What `do(verb, url, headers, body)` leaves behind, relative to the
        state before the call: the query-parameter store exists (the one
        there was, or a new empty one); when `http.NewRequest` fails, the
        result is "unable to create request" and the client is not chosen;
        otherwise the request carries the verb, URL and body, the URL's
        query with every stored parameter added, and the builder's headers
        merged with the per-call ones, and it goes through the client
        `getClient` fixes, whose exchange becomes the result. */
    twostate predicate Requested(verb: string, url: string, headers: Header, body: Option<seq<byte>>, env: Environment,
                                 new r: Result<Responses.Response, string>, new sent: Option<Request>)
      reads this, if queryParams.Some? then {queryParams.value.values} else {}
    {
      && queryParams.Some?
      && (old(queryParams).Some? ==> queryParams == old(queryParams))
      && (old(queryParams).None? ==> queryParams.value.values.entries == map[])
      && (env.newRequest(verb, url).None? ==>
            r == Failure(CreateRequestError) && sent.None? && client == old(client) && clientOnce == old(clientOnce))
      && (env.newRequest(verb, url).Some? ==>
            && sent.Some?
            && sent.value.verb == verb && sent.value.url == url && sent.value.body == body
            && sent.value.query == WithParams(env.newRequest(verb, url).value, queryParams.value.values.entries)
            && IsMergeOf(sent.value.header, HeaderStores.Singletons(old(builder.header.values.entries)), headers, env.canon)
            && clientOnce && client != null
            && (old(clientOnce) ==> client == old(client))
            && (!old(clientOnce) && old(builder.cstClient) != null ==> client == old(builder.cstClient))
            && (!old(clientOnce) && old(builder.cstClient) == null ==> client.settings == SettingsFrom(old(builder.timeout)))
            && r == Outcome(env.roundTrip(client.settings, sent.value)))
    }

    /** `do(method, url, headers, body)`: "unable to create request" when
        `http.NewRequest` fails; otherwise the request goes through the
        client `getClient` fixes, and the exchange becomes the outcome. */
    method Do(verb: string, url: string, headers: Header, body: Option<seq<byte>>, env: Environment)
      returns (r: Result<Responses.Response, string>, ghost sent: Option<Request>)
      requires Valid()
      modifies this
      ensures Valid() && Requested(verb, url, headers, body, env, r, sent)
    {
      var req := PrepareRequest(verb, url, headers, body, env);
      sent := req;
      if req.None? {
        return Failure(CreateRequestError), None;
      }
      var c := GetClient();
      r := Outcome(env.roundTrip(c.settings, req.value));
    }

    /** `Get(url, headers...)`: a "GET" without a body, with the first
        variadic header; afterwards, whatever the outcome, the timeouts are
        re-enabled when the effective request timeout reads 0. */
    method Get(url: string, headers: seq<Header>, env: Environment)
      returns (r: Result<Responses.Response, string>, ghost sent: Option<Request>)
      requires Valid()
      modifies this, builder
      ensures Valid() && Requested("GET", url, HeaderStores.GetHeader(headers), None, env, r, sent)
      ensures builder.timeout == AfterGet(old(builder.timeout))
      ensures builder.client == old(builder.client) && builder.cstClient == old(builder.cstClient)
    {
      r, sent := Do("GET", url, HeaderStores.GetHeader(headers), None, env);
      if builder.timeout.GetRequestTimeout() == 0 {
        builder.timeout := builder.timeout.Enable();
      }
    }

    /** `Post(url, body, headers...)`: the timeouts are left alone. */
    method Post(url: string, body: Option<seq<byte>>, headers: seq<Header>, env: Environment)
      returns (r: Result<Responses.Response, string>, ghost sent: Option<Request>)
      requires Valid()
      modifies this
      ensures Valid() && Requested("POST", url, HeaderStores.GetHeader(headers), body, env, r, sent)
      ensures builder.timeout == old(builder.timeout)
    {
      r, sent := Do("POST", url, HeaderStores.GetHeader(headers), body, env);
    }

    /** `Put(url, body, headers...)` */
    method Put(url: string, body: Option<seq<byte>>, headers: seq<Header>, env: Environment)
      returns (r: Result<Responses.Response, string>, ghost sent: Option<Request>)
      requires Valid()
      modifies this
      ensures Valid() && Requested("PUT", url, HeaderStores.GetHeader(headers), body, env, r, sent)
      ensures builder.timeout == old(builder.timeout)
    {
      r, sent := Do("PUT", url, HeaderStores.GetHeader(headers), body, env);
    }

    /** `Delete(url, body, headers...)` */
    method Delete(url: string, body: Option<seq<byte>>, headers: seq<Header>, env: Environment)
      returns (r: Result<Responses.Response, string>, ghost sent: Option<Request>)
      requires Valid()
      modifies this
      ensures Valid() && Requested("DELETE", url, HeaderStores.GetHeader(headers), body, env, r, sent)
      ensures builder.timeout == old(builder.timeout)
    {
      r, sent := Do("DELETE", url, HeaderStores.GetHeader(headers), body, env);
    }

    /** `Patch(url, body, headers...)` */
    method Patch(url: string, body: Option<seq<byte>>, headers: seq<Header>, env: Environment)
      returns (r: Result<Responses.Response, string>, ghost sent: Option<Request>)
      requires Valid()
      modifies this
      ensures Valid() && Requested("PATCH", url, HeaderStores.GetHeader(headers), body, env, r, sent)
      ensures builder.timeout == old(builder.timeout)
    {
      r, sent := Do("PATCH", url, HeaderStores.GetHeader(headers), body, env);
    }

    /** `Head(url, body, headers...)` */
    method Head(url: string, body: Option<seq<byte>>, headers: seq<Header>, env: Environment)
      returns (r: Result<Responses.Response, string>, ghost sent: Option<Request>)
      requires Valid()
      modifies this
      ensures Valid() && Requested("HEAD", url, HeaderStores.GetHeader(headers), body, env, r, sent)
      ensures builder.timeout == old(builder.timeout)
    {
      r, sent := Do("HEAD", url, HeaderStores.GetHeader(headers), body, env);
    }
  }

  /** Building twice gives the same client, which points back at the builder. */
  method BuildTwice() returns (first: GoHttpClient, second: GoHttpClient)
    ensures first == second && first.builder.client == first
  {
    var b := new Builder();
    first := b.Build();
    second := b.Build();
  }

  /** Five setters chained on `Headers()` all land in the one store. */
  method FiveSetters() returns (n: nat, requestId: string, contentType: string, userAgent: string,
                                acceptEncoding: string, acceptCharset: string)
    ensures n == 5 && requestId == "ABC123" && contentType == "application/json"
    ensures userAgent == "the-best-http-goHttpClient" && acceptEncoding == "gzip" && acceptCharset == "utf-8"
  {
    var b := new Builder();
    var h := b.Headers();
    h := h.SetContentType("application/json");
    h := h.SetAcceptEncoding("gzip");
    h := h.SetAcceptCharset("utf-8");
    h := h.SetCustom("User-Agent", "the-best-http-goHttpClient");
    h := h.SetCustom("X-Request-ID", "ABC123");
    var keys := b.Headers().values.entries.Keys;
    assert keys == {"Content-Type", "Accept-Encoding", "Accept-Charset", "User-Agent", "X-Request-ID"};
    n := b.Headers().Len();
    requestId := b.Headers().Get("X-Request-ID");
    contentType := b.Headers().Get("Content-Type");
    userAgent := b.Headers().Get("User-Agent");
    acceptEncoding := b.Headers().Get("Accept-Encoding");
    acceptCharset := b.Headers().Get("Accept-Charset");
  }

  /** A client whose timeouts were disabled before its first request keeps
      the client built then: toggling afterwards changes the settings, not
      the client. */
  method ClientFixedOnFirstUse() returns (before: ClientSettings, after: ClientSettings)
    ensures before == after && before.timeout == 0 && before.responseHeaderTimeout == 0
  {
    var b := new Builder();
    var c := b.Build();
    c.DisableTimeouts();
    var h := c.GetClient();
    before := h.settings;
    c.EnableTimeouts();
    var h2 := c.GetClient();
    after := h2.settings;
  }
}
