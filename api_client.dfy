/**
 * The browser's API client: it attaches the session token, builds query
 * strings, serialises bodies and turns error responses into `ApiError`s.
 *
 * The network call is the oracle `fetch`, which maps the call the client
 * makes to the status and the parsed body of the reply (no body when it is not
 * JSON), or to a failure when `fetch` itself rejects. `JSON.stringify` is the
 * parameter `stringify`.
 */
module ApiClient {
  import opened Options
  import opened Strings
  import opened Json

  // ----- errors -----

  /** `new ApiError(status, message, code)` */
  datatype ApiError = ApiError(status: nat, message: string, code: Option<Json>)

  /** What a request can be rejected with. */
  datatype Thrown =
    | ApiErr(error: ApiError)
    | PropertyOfNull   // a TypeError: reading `.error` of a `null` body
    | NotJson          // a SyntaxError: the success body is not JSON
    | FetchRejected    // fetch's own TypeError: network, DNS or CORS failure, passed on as is

  datatype Settled = Resolved(value: Json) | Rejected(reason: Thrown)

  /**
   * What `await fetch(...)` yields: a reply with its status and parsed body
   * (`None` when `response.json()` rejects), or `NoReply` when the promise
   * itself rejects and no response exists.
   */
  datatype Reply = Reply(status: nat, body: Option<Json>) | NoReply

  predicate IsOk(status: nat) {
    200 <= status <= 299
  }

  /** The error thrown for a reply that is not ok. */
  function ErrorFor(status: nat, body: Option<Json>): (t: Thrown)
    ensures body.None? ==> t == ApiErr(ApiError(status, "Network error", None))
    ensures body == Some(JNull) ==> t == PropertyOfNull
    ensures t.ApiErr? <==> body != Some(JNull)
    ensures t.ApiErr? ==> t.error.status == status
    ensures body.Some? && body.value != JNull ==>
      && t.error.code == Get(body.value, "code")
      && (Get(body.value, "error").None? || !Truthy(Get(body.value, "error").value) ==> t.error.message == "Unknown error")
      && (Get(body.value, "error").Some? && Truthy(Get(body.value, "error").value) ==>
            t.error.message == ToJsString(Get(body.value, "error").value))
  {
    if body.None? then ApiErr(ApiError(status, "Network error", None))
    else if body.value == JNull then PropertyOfNull
    else
      var j := body.value;
      var e := Get(j, "error");
      var message := if e.Some? && Truthy(e.value) then ToJsString(e.value) else "Unknown error";
      ApiErr(ApiError(status, message, Get(j, "code")))
  }

  /**
   * The server's error answers `{ error, code }` reach the caller unchanged: the
   * thrown error carries the answer's status, text and code.
   */
  lemma ServerErrorsSurvive(status: nat, error: string, code: string)
    requires error != ""
    ensures ErrorFor(status, Some(JObj(map["error" := JStr(error), "code" := JStr(code)])))
         == ApiErr(ApiError(status, error, Some(JStr(code))))
  {
  }

  /** What `request` resolves to for a reply. */
  function Settle(reply: Reply): (r: Settled)
    ensures r == Rejected(FetchRejected) <==> reply.NoReply?
    ensures reply.Reply? && IsOk(reply.status) ==>
      r == (if reply.body.Some? then Resolved(reply.body.value) else Rejected(NotJson))
    ensures reply.Reply? && !IsOk(reply.status) ==> r == Rejected(ErrorFor(reply.status, reply.body))
  {
    if reply.NoReply? then Rejected(FetchRejected)
    else if IsOk(reply.status) then
      if reply.body.Some? then Resolved(reply.body.value) else Rejected(NotJson)
    else Rejected(ErrorFor(reply.status, reply.body))
  }

  // ----- headers -----

  /** `{ "Content-Type": ..., ...(token && { Authorization: "Bearer " + token }), ...extra }` */
  function RequestHeaders(token: Option<string>, extra: map<string, string>): (h: map<string, string>)
    ensures h.Keys == {"Content-Type"} + (if token.Some? && token.value != "" then {"Authorization"} else {}) + extra.Keys
    ensures forall k :: k in extra ==> h[k] == extra[k]
    ensures "Content-Type" !in extra ==> h["Content-Type"] == "application/json"
    ensures "Authorization" !in extra && token.Some? && token.value != "" ==>
      h["Authorization"] == "Bearer " + token.value
  {
    var base := map["Content-Type" := "application/json"];
    var withToken := if token.Some? && token.value != "" then base["Authorization" := "Bearer " + token.value] else base;
    withToken + extra
  }

  /** A request carries an `Authorization` header iff there is a non-empty token or the caller sets one. */
  lemma AuthorizationPresence(token: Option<string>, extra: map<string, string>)
    ensures "Authorization" in RequestHeaders(token, extra) <==>
      (token.Some? && token.value != "") || "Authorization" in extra
  {
  }

  // ----- query strings -----

  /** A parameter value: `None` is `undefined`. */
  type Param = (string, Option<Json>)

  /** `value !== undefined && value !== null && value !== ""` */
  predicate Survives(v: Option<Json>) {
    v.Some? && v.value != JNull && v.value != JStr("")
  }

  /** The pairs the loop appends: every surviving parameter as `(key, String(value))`, in entry order. */
  function Kept(params: seq<Param>): (r: seq<(string, string)>)
    ensures |r| <= |params|
    decreases |params|
  {
    if |params| == 0 then []
    else
      var last := params[|params| - 1];
      Kept(params[..|params| - 1]) + (if Survives(last.1) then [(last.0, ToJsString(last.1.value))] else [])
  }

  /** Filtering respects concatenation: kept pairs come in the order of their parameters. */
  lemma {:induction false} KeptAppend(a: seq<Param>, b: seq<Param>)
    ensures Kept(a + b) == Kept(a) + Kept(b)
    decreases |b|
  {
    if |b| == 0 {
      assert a + b == a;
    } else {
      var b' := b[..|b| - 1];
      assert (a + b)[..|a + b| - 1] == a + b';
      KeptAppend(a, b');
    }
  }

  /** Exactly the surviving parameters are kept. */
  lemma {:induction false} KeptMembers(params: seq<Param>)
    ensures forall k :: 0 <= k < |params| && Survives(params[k].1) ==>
      (params[k].0, ToJsString(params[k].1.value)) in Kept(params)
    ensures forall p :: p in Kept(params) ==>
      exists k :: 0 <= k < |params| && Survives(params[k].1) && p == (params[k].0, ToJsString(params[k].1.value))
    decreases |params|
  {
    if |params| > 0 {
      var init := params[..|params| - 1];
      KeptMembers(init);
      forall p | p in Kept(params)
        ensures exists k :: 0 <= k < |params| && Survives(params[k].1) && p == (params[k].0, ToJsString(params[k].1.value))
      {
        if p in Kept(init) {
          var k :| 0 <= k < |init| && Survives(init[k].1) && p == (init[k].0, ToJsString(init[k].1.value));
          assert params[k] == init[k];
        }
      }
      forall k | 0 <= k < |params| && Survives(params[k].1)
        ensures (params[k].0, ToJsString(params[k].1.value)) in Kept(params)
      {
        if k < |init| {
          assert params[k] == init[k];
        }
      }
    }
  }

  /** No parameter survives: nothing is kept. */
  lemma {:induction false} KeptEmpty(params: seq<Param>)
    ensures Kept(params) == [] <==> forall k :: 0 <= k < |params| ==> !Survives(params[k].1)
  {
    KeptMembers(params);
    if Kept(params) != [] {
      assert Kept(params)[0] in Kept(params);
    }
  }

  predicate Unreserved(c: char) {
    ('a' <= c <= 'z') || ('A' <= c <= 'Z') || ('0' <= c <= '9') || c == '*' || c == '-' || c == '.' || c == '_'
  }

  /** The UTF-8 bytes of a Unicode scalar value. */
  function Utf8(c: char): (bytes: seq<nat>)
    ensures 1 <= |bytes| <= 4 && forall k :: 0 <= k < |bytes| ==> bytes[k] < 256
  {
    var n := c as int;
    if n < 0x80 then [n]
    else if n < 0x800 then [0xC0 + n / 64, 0x80 + n % 64]
    else if n < 0x10000 then [0xE0 + n / 4096, 0x80 + (n / 64) % 64, 0x80 + n % 64]
    else [0xF0 + (n / 262144) % 8, 0x80 + (n / 4096) % 64, 0x80 + (n / 64) % 64, 0x80 + n % 64]
  }

  function HexDigit(d: nat): (c: char)
    requires d < 16
    ensures c != '&' && c != '='
  {
    "0123456789ABCDEF"[d]
  }

  /** `%XY` for each byte. */
  function PercentBytes(bytes: seq<nat>): (r: string)
    requires forall k :: 0 <= k < |bytes| ==> bytes[k] < 256
    ensures '&' !in r && '=' !in r
  {
    if |bytes| == 0 then ""
    else ['%', HexDigit(bytes[0] / 16), HexDigit(bytes[0] % 16)] + PercentBytes(bytes[1..])
  }

  /** The `application/x-www-form-urlencoded` byte serializer, one character at a time. */
  function EncodeChar(c: char): (r: string)
    ensures '&' !in r && '=' !in r
  {
    if Unreserved(c) then [c]
    else if c == ' ' then "+"
    else PercentBytes(Utf8(c))
  }

  function FormEncode(s: string): (r: string)
    ensures '&' !in r && '=' !in r
  {
    if |s| == 0 then "" else EncodeChar(s[0]) + FormEncode(s[1..])
  }

  function Entry(p: (string, string)): string {
    FormEncode(p.0) + "=" + FormEncode(p.1)
  }

  function Entries(pairs: seq<(string, string)>): (r: seq<string>)
    ensures |r| == |pairs| && forall k :: 0 <= k < |pairs| ==> r[k] == Entry(pairs[k])
  {
    seq(|pairs|, k requires 0 <= k < |pairs| => Entry(pairs[k]))
  }

  /** `searchParams.toString()`: the entries joined by "&"; empty exactly when nothing was appended. */
  function Serialize(pairs: seq<(string, string)>): (r: string)
    ensures r == "" <==> pairs == []
  {
    if pairs != [] then
      JoinLength(Entries(pairs), "&");
      TotalLengthPositive(Entries(pairs));
      Join(Entries(pairs), "&")
    else Join(Entries(pairs), "&")
  }

  lemma {:induction false} TotalLengthPositive(parts: seq<string>)
    requires |parts| >= 1 && |parts[0]| >= 1
    ensures TotalLength(parts) >= 1
  {
  }

  /** Splitting the query on "&" gives back one `key=value` entry per appended pair. */
  lemma SerializeSplits(pairs: seq<(string, string)>)
    requires pairs != []
    ensures Split(Serialize(pairs), '&') == Entries(pairs)
  {
    var es := Entries(pairs);
    forall k | 0 <= k < |es| ensures '&' !in es[k] {
      assert es[k] == FormEncode(pairs[k].0) + "=" + FormEncode(pairs[k].1);
    }
    assert "&" == ['&'];
    SplitJoin(es, '&');
  }

  /** The query the `get` loop builds, as a specification. */
  function Query(params: seq<Param>): (q: string)
    ensures q == "" <==> forall k :: 0 <= k < |params| ==> !Survives(params[k].1)
  {
    KeptEmpty(params);
    Serialize(Kept(params))
  }

  /** `get`'s URL: the path alone when no parameter survives, else path, "?", query. */
  function GetPath(path: string, params: Option<seq<Param>>): (url: string)
    ensures params.None? ==> url == path
    ensures params.Some? ==>
      url == (if forall k :: 0 <= k < |params.value| ==> !Survives(params.value[k].1) then path
              else path + "?" + Query(params.value))
  {
    if params.None? then path
    else
      var q := Query(params.value);
      if q != "" then path + "?" + q else path
  }

  /** The `forEach` loop over the parameter entries, appending to the search parameters. */
  method BuildQuery(params: seq<Param>) returns (q: string)
    ensures q == Query(params)
  {
    var searchParams: seq<(string, string)> := [];
    var i := 0;
    while i < |params|
      invariant 0 <= i <= |params|
      invariant searchParams == Kept(params[..i])
    {
      var (key, value) := params[i];
      assert params[..i + 1][..i] == params[..i];
      if value.Some? && value.value != JNull && value.value != JStr("") {
        searchParams := searchParams + [(key, ToJsString(value.value))];
      }
      i := i + 1;
    }
    assert params[..|params|] == params;
    q := Serialize(searchParams);
  }

  // ----- the client -----

  /** A call handed to `fetch`: URL, method (`None` is fetch's default, GET), headers and body text. */
  datatype FetchCall = FetchCall(url: string, verb: Option<string>, headers: map<string, string>, body: Option<string>)

  type Fetch = FetchCall -> Reply

  /** The session-token getter; `None` stands for a getter resolving to `null`. */
  type TokenGetter = () -> Option<string>

  const DEFAULT_BASE_URL := "http://localhost:5000"

  /** `body ? JSON.stringify(body) : undefined` */
  function BodyText(body: Option<Json>, stringify: Json -> string): (r: Option<string>)
    ensures r.None? <==> body.None? || !Truthy(body.value)
    ensures r.Some? ==> r.value == stringify(body.value)
  {
    if body.Some? && Truthy(body.value) then Some(stringify(body.value)) else None
  }

  class Client {
    const baseUrl: string
    var getToken: Option<TokenGetter>

    /** `VITE_API_URL || "http://localhost:5000"` */
    constructor(viteApiUrl: Option<string>)
      ensures baseUrl == (if viteApiUrl.Some? && viteApiUrl.value != "" then viteApiUrl.value else DEFAULT_BASE_URL)
      ensures getToken == None
    {
      baseUrl := if viteApiUrl.Some? && viteApiUrl.value != "" then viteApiUrl.value else DEFAULT_BASE_URL;
      getToken := None;
    }

    method SetTokenGetter(getter: TokenGetter)
      modifies this
      ensures getToken == Some(getter)
    {
      getToken := Some(getter);
    }

    /** `this.getToken ? await this.getToken() : null` */
    function CurrentToken(): (t: Option<string>)
      reads this
      ensures getToken.None? ==> t.None?
      ensures getToken.Some? ==> t == getToken.value()
    {
      if getToken.Some? then getToken.value() else None
    }

    /** The call `request(path, options)` hands to `fetch`. */
    function Call(path: string, verb: Option<string>, body: Option<string>, headers: map<string, string>): (c: FetchCall)
      reads this
      ensures c.url == baseUrl + path && c.verb == verb && c.body == body
      ensures c.headers == RequestHeaders(CurrentToken(), headers)
    {
      FetchCall(baseUrl + path, verb, RequestHeaders(CurrentToken(), headers), body)
    }

    /** `request(path, options)` */
    method Request(path: string, verb: Option<string>, body: Option<string>, headers: map<string, string>,
                   fetch: Fetch) returns (r: Settled)
      ensures r == Settle(fetch(Call(path, verb, body, headers)))
    {
      var call := Call(path, verb, body, headers);
      var reply := fetch(call);
      r := Settle(reply);
    }

    /** `get(path, { params })` */
    method GetRequest(path: string, params: Option<seq<Param>>, fetch: Fetch) returns (r: Settled)
      ensures r == Settle(fetch(Call(GetPath(path, params), None, None, map[])))
    {
      var url := path;
      if params.Some? {
        var q := BuildQuery(params.value);
        url := if q != "" then path + "?" + q else path;
      }
      r := Request(url, None, None, map[], fetch);
    }

    /** `post`, `put` and `patch`: the body is sent as JSON text unless it is falsy. */
    method Send(verb: string, path: string, body: Option<Json>, stringify: Json -> string, fetch: Fetch)
      returns (r: Settled)
      requires verb in {"POST", "PUT", "PATCH"}
      ensures r == Settle(fetch(Call(path, Some(verb), BodyText(body, stringify), map[])))
    {
      var text := if body.Some? && Truthy(body.value) then Some(stringify(body.value)) else None;
      r := Request(path, Some(verb), text, map[], fetch);
    }

    /** `delete(path)` */
    method DeleteRequest(path: string, fetch: Fetch) returns (r: Settled)
      ensures r == Settle(fetch(Call(path, Some("DELETE"), None, map[])))
    {
      r := Request(path, Some("DELETE"), None, map[], fetch);
    }
  }

  /** With a getter that yields a non-empty token, every call carries it as a bearer credential. */
  lemma GetterTokenIsSent(client: Client, path: string, verb: Option<string>, body: Option<string>, token: string)
    requires client.getToken.Some? && client.getToken.value() == Some(token) && token != ""
    ensures client.Call(path, verb, body, map[]).headers == map["Content-Type" := "application/json",
                                                                "Authorization" := "Bearer " + token]
  {
  }
}
