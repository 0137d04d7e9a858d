/**
 * The browser client's request helper: how a path is joined with the API
 * base, how the headers object is filled in, and how a fetch outcome is
 * turned into a resolved value or a rejection carrying a message.
 */
module ClientApi {
  import opened Common
  import opened Strings
  import AuthMiddleware

  /** `import.meta.env.VITE_API_URL || '/api'` */
  function Base(configured: string): (b: string)
    ensures configured != "" ==> b == configured
    ensures configured == "" ==> b == "/api"
  {
    if configured != "" then configured else "/api"
  }

  /** The url `request` fetches: a path that already starts with the base is used as it is. */
  function JoinUrl(base: string, path: string): (url: string)
    ensures StartsWith(url, base)
    ensures StartsWith(path, base) ==> url == path
  {
    if StartsWith(path, base) then path
    else if StartsWith(path, "/") then base + path
    else base + "/" + path
  }

  /**
   * Every url starts with the base; joining an
   * already joined url changes nothing; and a path that does not start with
   * the base is kept whole after it, behind exactly one '/' when it had none.
   */
  lemma JoinUrlLaws(base: string, path: string)
    ensures StartsWith(JoinUrl(base, path), base)
    ensures JoinUrl(base, JoinUrl(base, path)) == JoinUrl(base, path)
    ensures !StartsWith(path, base) && StartsWith(path, "/") ==> JoinUrl(base, path)[|base|..] == path
    ensures !StartsWith(path, base) && !StartsWith(path, "/") ==> JoinUrl(base, path)[|base|..] == "/" + path
  {
    var url := JoinUrl(base, path);
    if !StartsWith(path, base) {
      if StartsWith(path, "/") {
        assert url == base + path;
        assert url[..|base|] == base;
      } else {
        assert url == base + ("/" + path);
        assert url[..|base|] == base;
      }
    }
  }

  /** A path under the default base that starts with "/api" is sent unchanged, even "/apiary". */
  lemma JoinUrlPrefixQuirk()
    ensures JoinUrl("/api", "/apiary") == "/apiary"
    ensures JoinUrl("/api", "/products") == "/api/products"
    ensures JoinUrl("/api", "cart") == "/api/cart"
  {
    assert "/apiary"[..4] == "/api";
    assert !StartsWith("/products", "/api") by { assert "/products"[1] != "/api"[1]; }
    assert !StartsWith("cart", "/api") by { assert "cart"[0] != "/api"[0]; }
  }

  /** The headers after `request` fills them in (the token is what localStorage holds, if anything). */
  function PreparedHeaders(headers: map<string, string>, token: Option<string>, formData: bool): (h: map<string, string>)
    ensures token.Some? && token.value != "" ==> "Authorization" in h && h["Authorization"] == "Bearer " + token.value
    ensures !(token.Some? && token.value != "") ==>
              ("Authorization" in h <==> "Authorization" in headers)
              && ("Authorization" in h ==> h["Authorization"] == headers["Authorization"])
    ensures !formData ==> "Content-Type" in h && h["Content-Type"] != ""
    ensures !formData && !("Content-Type" in headers && headers["Content-Type"] != "") ==>
              h["Content-Type"] == "application/json"
    ensures !formData && "Content-Type" in headers && headers["Content-Type"] != "" ==>
              h["Content-Type"] == headers["Content-Type"]
    ensures formData ==> ("Content-Type" in h <==> "Content-Type" in headers)
    ensures forall k :: k in headers && k != "Authorization" && k != "Content-Type" ==> k in h && h[k] == headers[k]
    ensures forall k :: k in h ==> k in headers || k == "Authorization" || k == "Content-Type"
  {
    var h := if token.Some? && token.value != "" then headers["Authorization" := "Bearer " + token.value] else headers;
    if formData then h
    else
      var current := if "Content-Type" in h then h["Content-Type"] else "";
      h["Content-Type" := if current != "" then current else "application/json"]
  }

  /** Filling the headers in twice gives what filling them in once gives. */
  lemma PreparedHeadersIdempotent(headers: map<string, string>, token: Option<string>, formData: bool)
    ensures PreparedHeaders(PreparedHeaders(headers, token, formData), token, formData)
         == PreparedHeaders(headers, token, formData)
  {
  }

  /**
   * The Authorization header the client sends is the one the server's
   * guards read: for a token without spaces, the guard extracts exactly it.
   */
  lemma ClientTokenReachesServer(headers: map<string, string>, token: string, formData: bool)
    requires token != "" && ' ' !in token
    ensures var h := PreparedHeaders(headers, Some(token), formData);
            AuthMiddleware.TokenOf(Some(h["Authorization"])) == Some(token)
  {
    assert ' ' !in "Bearer";
    AuthMiddleware.BearerRoundTrip("Bearer", token, "");
    assert "Bearer " + token == "Bearer" + " " + token;
  }

  /** The headers object `request` receives and fills in place (the caller's own object when it passes one). */
  class Headers {
    var fields: map<string, string>

    constructor (initial: map<string, string>)
      ensures fields == initial
    {
      fields := initial;
    }

    /** Sets Authorization when a token is stored and, unless the body is form data, defaults Content-Type. */
    method Prepare(token: Option<string>, formData: bool)
      modifies this
      ensures fields == PreparedHeaders(old(fields), token, formData)
    {
      if token.Some? && token.value != "" {
        fields := fields["Authorization" := "Bearer " + token.value];
      }
      if !formData {
        var current := if "Content-Type" in fields then fields["Content-Type"] else "";
        fields := fields["Content-Type" := if current != "" then current else "application/json"];
      }
    }
  }

  /** What `fetch` produced: a network failure (a TypeError), or a status and the body text. */
  datatype Fetched = NetworkFailure | Received(status: nat, text: string)

  /** How the promise `request` returns settles. */
  datatype Settled = Resolved(value: Value) | Rejected(reason: Value)

  /** `{ message: m }` */
  function MessageObject(m: string): Value {
    Obj([("message", Str(m))])
  }

  const NetworkError := "Network error or server unreachable"
  const RequestFailed := "Request failed"

  /** `data.message` on a parsed body that is not null (a non-object has no such property). */
  function MessageOf(data: Value): Value {
    if data.Obj? then Field(data.fields, "message") else Undefined
  }

  /** `text ? JSON.parse(text) : {}`, with `{}` when parsing throws. */
  function BodyOf(text: string, parse: string -> Option<Value>): Value {
    if text == "" then Obj([])
    else match parse(text)
      case Some(v) => v
      case None => Obj([])
  }

  /** `res.ok` */
  predicate Ok(status: nat) {
    200 <= status <= 299
  }

  /**
   * The outcome of `request` for a fetch outcome. `parse` stands for
   * `JSON.parse`. A failed response whose body is JSON `null` makes
   * `data.message` throw a TypeError, which the catch reports as a network
   * error.
   */
  function Settle(fetched: Fetched, parse: string -> Option<Value>): (r: Settled)
    ensures r.Resolved? <==> fetched.Received? && Ok(fetched.status)
    ensures fetched.NetworkFailure? ==> r == Rejected(MessageObject(NetworkError))
    ensures fetched.Received? && !Ok(fetched.status) && Truthy(MessageOf(BodyOf(fetched.text, parse))) ==>
              r == Rejected(BodyOf(fetched.text, parse))
    ensures fetched.Received? && !Ok(fetched.status) && BodyOf(fetched.text, parse).Null? ==>
              r == Rejected(MessageObject(NetworkError))
    ensures fetched.Received? && !Ok(fetched.status) && !BodyOf(fetched.text, parse).Null?
            && !Truthy(MessageOf(BodyOf(fetched.text, parse))) ==>
              r == Rejected(MessageObject(RequestFailed))
  {
    match fetched
    case NetworkFailure => Rejected(MessageObject(NetworkError))
    case Received(status, text) =>
      var data := BodyOf(text, parse);
      if Ok(status) then Resolved(if status == 204 then Obj([]) else data)
      else if Truthy(data) && Truthy(MessageOf(data)) then Rejected(data)
      else if data.Null? then Rejected(MessageObject(NetworkError))
      else Rejected(MessageObject(RequestFailed))
  }

  /**
   * A request resolves exactly when the response is ok, and then with the
   * parsed body, or `{}` for 204 or an empty or unparseable body. A
   * rejection always carries a truthy `message`: the server's own when it
   * sent one, "Request failed" when it did not, and the network-error
   * message when the fetch failed or the failed response's body was `null`.
   */
  lemma SettleLaws(fetched: Fetched, parse: string -> Option<Value>)
    ensures Settle(fetched, parse).Resolved? <==> fetched.Received? && Ok(fetched.status)
    ensures fetched.Received? && Ok(fetched.status) && fetched.status != 204 ==>
              Settle(fetched, parse).value == BodyOf(fetched.text, parse)
    ensures fetched.Received? && fetched.status == 204 ==> Settle(fetched, parse) == Resolved(Obj([]))
    ensures Settle(fetched, parse).Rejected? ==> Truthy(MessageOf(Settle(fetched, parse).reason))
    ensures fetched.Received? && !Ok(fetched.status) && BodyOf(fetched.text, parse).Null? ==>
              Settle(fetched, parse) == Rejected(MessageObject(NetworkError))
    ensures fetched.Received? && !Ok(fetched.status) && fetched.text == "" ==>
              Settle(fetched, parse) == Rejected(MessageObject(RequestFailed))
    ensures fetched.Received? && !Ok(fetched.status) && Truthy(MessageOf(BodyOf(fetched.text, parse))) ==>
              Settle(fetched, parse) == Rejected(BodyOf(fetched.text, parse))
    ensures fetched.Received? && !Ok(fetched.status) && !BodyOf(fetched.text, parse).Null?
            && !Truthy(MessageOf(BodyOf(fetched.text, parse))) ==>
              Settle(fetched, parse) == Rejected(MessageObject(RequestFailed))
  {
    assert Field([("message", Str(NetworkError))], "message") == Str(NetworkError);
    assert Field([("message", Str(RequestFailed))], "message") == Str(RequestFailed);
  }

  /** The body `request` sends. */
  datatype Body = NoBody | FormBody | TextBody(text: string)

  /** The data `createProduct` is given: a FormData object, or anything else. */
  datatype ProductData = Form | Json(value: Value)

  /** `createProduct`'s body choice: form data goes as it is, anything else as its JSON text. */
  function CreateProductBody(data: ProductData, stringify: Value -> string): (b: Body)
    ensures b.FormBody? <==> data.Form?
    ensures data.Json? ==> b == TextBody(stringify(data.value))
  {
    if data.Form? then FormBody else TextBody(stringify(data.value))
  }

  /**
   * A product sent as form data goes without a Content-Type of ours (the
   * browser supplies one with the boundary); sent as JSON it is labelled
   * "application/json".
   */
  lemma CreateProductHeaders(data: ProductData, stringify: Value -> string, token: Option<string>)
    ensures var h := PreparedHeaders(map[], token, CreateProductBody(data, stringify).FormBody?);
            && (data.Form? ==> "Content-Type" !in h)
            && (data.Json? ==> h["Content-Type"] == "application/json")
  {
  }

  /**
   * `request(path, options)`: fills in the headers object in place, fetches
   * the joined url and settles on the outcome. The fetch itself is an input.
   */
  method Request(base: string, path: string, body: Body, headers: Headers, token: Option<string>,
                 fetched: Fetched, parse: string -> Option<Value>)
    returns (url: string, r: Settled)
    modifies headers
    ensures headers.fields == PreparedHeaders(old(headers.fields), token, body.FormBody?)
    ensures url == JoinUrl(base, path) && StartsWith(url, base)
    ensures r == Settle(fetched, parse)
  {
    headers.Prepare(token, body.FormBody?);
    JoinUrlLaws(base, path);
    url := JoinUrl(base, path);
    r := Settle(fetched, parse);
  }
}
