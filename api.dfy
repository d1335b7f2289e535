/**
 * The API client: where the backend lives, the two tokens and the three
 * storage keys that hold the session, the request procedure with its
 * single refresh-and-retry, and the query strings of the listing calls.
 * The network is an oracle: each call is handed the answers it will get.
 */
module Api {
  import opened Wrappers

  const TOKEN_KEY := "carinsight_token"
  const REFRESH_KEY := "carinsight_refresh_token"
  const USER_KEY := "carinsight_user"

  const PRODUCTION_API := "https://api.carinsight.com.br"
  const LOCAL_API := "http://localhost:3000"

  /** Stands for the message of the SyntaxError that `response.json()` throws on a body that is not JSON. */
  const INVALID_JSON := "Unexpected token in JSON"

  /** The backend is the production host when the page is served from carinsight.com.br, localhost otherwise. */
  function ApiBaseUrl(hostname: string): (url: string)
    ensures url == PRODUCTION_API <==> hostname == "carinsight.com.br" || hostname == "www.carinsight.com.br"
    ensures url != PRODUCTION_API ==> url == LOCAL_API
  {
    if hostname == "carinsight.com.br" || hostname == "www.carinsight.com.br" then PRODUCTION_API else LOCAL_API
  }

  /** JavaScript truthiness of a value that is a string, `null` or `undefined`. */
  predicate Truthy(v: Option<string>) {
    v.Some? && v.value != ""
  }

  /** `localStorage.getItem`: the stored text, or `null`. */
  function Get(m: map<string, string>, key: string): Option<string> {
    if key in m then Some(m[key]) else None
  }

  /**
   * A parsed JSON body, as far as this layer looks into it: an object, the
   * value `null`, or any other JSON value. An object keeps its truthy
   * properties as text (a string as itself, anything else as its JSON
   * text); a property set to `null`, `false` or `0` is falsy, so it is
   * represented as absent, and the empty string stands for itself.
   */
  datatype Json = Object(props: map<string, string>) | Null | NonObject

  /**
   * `j[key]` where `j` is not `null`: the property of an object, `undefined`
   * for any other value. Reading a property of `null` throws instead, see
   * `NullRead`.
   */
  function Prop(j: Json, key: string): Option<string> {
    if j.Object? then Get(j.props, key) else None
  }

  /** Stands for the message of the TypeError thrown by reading `key` of `null`. */
  function NullRead(key: string): (message: string)
    ensures |message| > |key| + 2
    ensures message[|message| - |key| - 2..|message| - 2] == key
  {
    "Cannot read properties of null (reading '" + key + "')"
  }

  /** What one `fetch` gives back: a network failure, or a status with a body that parses as JSON or not. */
  datatype Exchange = NetworkError(reason: string) | Http(status: nat, body: Option<Json>)

  /** The network's answers to the requests of one `_fetch`, in the order they may be sent. */
  datatype Script = Script(first: Exchange, refresh: Exchange, retry: Exchange)

  /** A request as it leaves the client. */
  datatype Request = Request(verb: string, url: string, authorization: Option<string>, body: Option<string>)

  /** The `options` argument of `_fetch`. */
  datatype Options = Options(verb: Option<string>, body: Option<string>, auth: bool)

  /** `response.ok`: the 2xx range, so a 401 is never ok. */
  function IsOk(status: nat): (ok: bool)
    ensures ok ==> status != 401
    ensures ok <==> 200 <= status < 300
  {
    200 <= status <= 299
  }

  /** The credentials of an `Authorization` header in the Bearer scheme (section 2.1 of RFC 6750); a `null` token prints as "null". */
  function BearerHeader(token: Option<string>): (header: string)
    ensures |header| >= 7 && header[..7] == "Bearer "
    ensures token.Some? ==> header[7..] == token.value
  {
    "Bearer " + (if token.Some? then token.value else "null")
  }

  // ---------------------------------------------------------------- numbers

  function Digit(d: nat): (c: char)
    requires d < 10
    ensures '0' <= c <= '9'
  {
    ('0' as int + d) as char
  }

  function DigitValue(c: char): nat {
    if '0' <= c <= '9' then c as int - '0' as int else 0
  }

  /** The decimal numeral JavaScript prints for a non-negative integer. */
  function DecimalString(n: nat): (s: string)
    ensures |s| >= 1
    ensures forall k :: 0 <= k < |s| ==> '0' <= s[k] <= '9'
    ensures s[0] == '0' ==> n == 0
  {
    if n < 10 then [Digit(n)] else DecimalString(n / 10) + [Digit(n % 10)]
  }

  /** Reads a string of decimal digits back as a number. */
  function ParseDecimal(s: string): nat {
    if s == [] then 0 else ParseDecimal(s[..|s| - 1]) * 10 + DigitValue(s[|s| - 1])
  }

  /** Printing a status and reading it back gives the status. */
  lemma {:induction false} DecimalRoundTrip(n: nat)
    ensures ParseDecimal(DecimalString(n)) == n
  {
    var s := DecimalString(n);
    if n >= 10 {
      DecimalRoundTrip(n / 10);
      assert s[..|s| - 1] == DecimalString(n / 10);
    }
  }

  /** `String(n)` for an integer. */
  function IntString(n: int): (s: string)
    ensures s != ""
    ensures n >= 0 ==> s == DecimalString(n)
    ensures n < 0 ==> s[0] == '-' && s[1..] == DecimalString(-n)
  {
    if n < 0 then "-" + DecimalString(-n) else DecimalString(n)
  }

  // ------------------------------------------------------------ responses

  /** `error.message || \`HTTP ${status}\``, where a body that does not parse counts as `{}`. */
  function ErrorMessage(status: nat, body: Option<Json>): (message: string)
    ensures message != ""
    ensures body.Some? && Truthy(Prop(body.value, "message")) ==> message == Prop(body.value, "message").value
    ensures !(body.Some? && Truthy(Prop(body.value, "message"))) ==>
              |message| > 5 && message[..5] == "HTTP " && message[5..] == DecimalString(status)
  {
    if body.Some? && Truthy(Prop(body.value, "message")) then Prop(body.value, "message").value
    else "HTTP " + DecimalString(status)
  }

  /** When the server gives no message, the generic one names the status exactly. */
  lemma ErrorMessageNamesStatus(status: nat, body: Option<Json>)
    requires !(body.Some? && Truthy(Prop(body.value, "message")))
    ensures ParseDecimal(ErrorMessage(status, body)[5..]) == status
  {
    DecimalRoundTrip(status);
  }

  /** `response.json()`: the parsed body, or the SyntaxError it throws. */
  function ParseBody(body: Option<Json>): (r: Result<Json>)
    ensures r.Ok? <==> body.Some?
    ensures r.Ok? ==> r.value == body.value
  {
    if body.Some? then Ok(body.value) else Err(INVALID_JSON)
  }

  /**
   * The end of `_fetch` without a retry: a network failure rethrown, a
   * non-2xx status turned into an Error with the server's message or
   * "HTTP <status>" (an error body that is `null` throws a TypeError
   * instead), and the parsed body of a 2xx response.
   */
  function Checked(e: Exchange): (r: Result<Json>)
    ensures r.Ok? <==> e.Http? && IsOk(e.status) && e.body.Some?
    ensures e.NetworkError? ==> r == Err(e.reason)
    ensures e.Http? && !IsOk(e.status) && e.body == Some(Null) ==> r == Err(NullRead("message"))
    ensures e.Http? && !IsOk(e.status) && e.body != Some(Null) ==> r == Err(ErrorMessage(e.status, e.body))
    ensures r.Ok? ==> r.value == e.body.value
  {
    match e
    case NetworkError(reason) => Err(reason)
    case Http(status, body) =>
      if IsOk(status) then ParseBody(body)
      else if body == Some(Null) then Err(NullRead("message"))
      else Err(ErrorMessage(status, body))
  }

  /** `return retryResponse.json()`: the retried answer's body, whatever its status. */
  function Unchecked(e: Exchange): (r: Result<Json>)
    ensures r.Ok? <==> e.Http? && e.body.Some?
    ensures e.NetworkError? ==> r == Err(e.reason)
    ensures r.Ok? ==> r.value == e.body.value
  {
    match e
    case NetworkError(reason) => Err(reason)
    case Http(_, body) => ParseBody(body)
  }

  /** A retried request that the server rejects again still yields its body as the result. */
  lemma RetryIgnoresStatus(status: nat, body: Json)
    requires !IsOk(status)
    ensures Unchecked(Http(status, Some(body))) == Ok(body)
    ensures Checked(Http(status, Some(body))).Err?
  {
  }

  /**
   * What `login` and `register` resolve to: the outcome of `_fetch`, except
   * that a 2xx `null` body makes the following `_saveTokens` throw.
   */
  function Authenticated(e: Exchange): (r: Result<Json>)
    ensures Checked(e).Err? ==> r == Checked(e)
    ensures r.Ok? <==> Checked(e).Ok? && !Checked(e).value.Null?
    ensures r.Ok? ==> r == Checked(e)
    ensures Checked(e).Ok? && r.Err? ==> r == Err(NullRead("accessToken"))
  {
    var response := Checked(e);
    if response.Ok? && response.value.Null? then Err(NullRead("accessToken")) else response
  }

  /**
   * `_refreshTokens` keeps the session exactly when the answer is 2xx with
   * a body that parses and is not `null` (a `null` body makes `_saveTokens`
   * throw, which is caught like any other failure): the same answers that a
   * login would accept.
   */
  function RefreshAccepted(e: Exchange): (accepted: bool)
    ensures accepted <==> Authenticated(e).Ok?
  {
    e.Http? && IsOk(e.status) && e.body.Some? && !e.body.value.Null?
  }
  // --------------------------------------------------------- request bodies

  /** The request bodies, as `JSON.stringify` writes them for plain text; each field can be read back at its place. */
  function RefreshBody(token: string): (body: string)
    ensures |body| == |token| + 19
    ensures body[17..17 + |token|] == token
  {
    "{\"refreshToken\":\"" + token + "\"}"
  }

  function SavedBody(vehicleId: string): (body: string)
    ensures |body| == |vehicleId| + 31
    ensures body[..14] == "{\"vehicleId\":\""
    ensures body[14..14 + |vehicleId|] == vehicleId
    ensures body[14 + |vehicleId|..] == "\",\"type\":\"SAVED\"}"
  {
    "{\"vehicleId\":\"" + vehicleId + "\",\"type\":\"SAVED\"}"
  }

  function LoginBody(email: string, password: string): (body: string)
    ensures |body| == |email| + |password| + 26
    ensures body[10..10 + |email|] == email
    ensures body[24 + |email|..24 + |email| + |password|] == password
  {
    "{\"email\":\"" + email + "\",\"password\":\"" + password + "\"}"
  }

  function RegisterBody(email: string, password: string, name: string): (body: string)
    ensures |body| == |email| + |password| + |name| + 36
    ensures body[10..10 + |email|] == email
    ensures body[24 + |email|..24 + |email| + |password|] == password
    ensures body[34 + |email| + |password|..34 + |email| + |password| + |name|] == name
  {
    "{\"email\":\"" + email + "\",\"password\":\"" + password + "\",\"name\":\"" + name + "\"}"
  }

  /** `options.method || 'GET'`. */
  function MethodOf(options: Options): (verb: string)
    ensures verb != ""
    ensures !Truthy(options.verb) ==> verb == "GET"
    ensures Truthy(options.verb) ==> Some(verb) == options.verb
  {
    if Truthy(options.verb) then options.verb.value else "GET"
  }

  // ---------------------------------------------------------------- session

  /** The part of the client that `_saveTokens` and `logout` change: both tokens and the storage. */
  datatype TokenState = TokenState(accessToken: Option<string>, refreshToken: Option<string>,
                                   storage: map<string, string>)

  /** The in-memory tokens are what storage holds under their keys. */
  predicate MirroredState(t: TokenState) {
    t.accessToken == Get(t.storage, TOKEN_KEY) && t.refreshToken == Get(t.storage, REFRESH_KEY)
  }

  /** The two storages agree on every key other than the session's three. */
  ghost predicate OthersKept(m: map<string, string>, n: map<string, string>) {
    forall k :: k != TOKEN_KEY && k != REFRESH_KEY && k != USER_KEY ==> Get(m, k) == Get(n, k)
  }

  /**
   * `_saveTokens(response)`: `None` when the response is `null`, since
   * reading its first property throws before anything is written.
   * Otherwise each of the two tokens is replaced, in memory and in
   * storage, only when the response carries a truthy value for it, and a
   * truthy user is stored; everything else is kept.
   */
  function Saved(t: TokenState, response: Json): (r: Option<TokenState>)
    ensures r.None? <==> response.Null?
    ensures r.Some? ==>
              r.value.accessToken ==
              if Truthy(Prop(response, "accessToken")) then Prop(response, "accessToken") else t.accessToken
    ensures r.Some? ==>
              r.value.refreshToken ==
              if Truthy(Prop(response, "refreshToken")) then Prop(response, "refreshToken") else t.refreshToken
    ensures r.Some? ==>
              Get(r.value.storage, TOKEN_KEY) ==
              if Truthy(Prop(response, "accessToken")) then Prop(response, "accessToken") else Get(t.storage, TOKEN_KEY)
    ensures r.Some? ==>
              Get(r.value.storage, REFRESH_KEY) ==
              if Truthy(Prop(response, "refreshToken")) then Prop(response, "refreshToken") else Get(t.storage, REFRESH_KEY)
    ensures r.Some? ==>
              Get(r.value.storage, USER_KEY) ==
              if Truthy(Prop(response, "user")) then Prop(response, "user") else Get(t.storage, USER_KEY)
    ensures r.Some? ==> OthersKept(r.value.storage, t.storage)
    ensures r.Some? && MirroredState(t) ==> MirroredState(r.value)
  {
    if response.Null? then None
    else
      var access := Prop(response, "accessToken");
      var refresh := Prop(response, "refreshToken");
      var user := Prop(response, "user");
      var t1 := if Truthy(access) then t.(accessToken := access, storage := t.storage[TOKEN_KEY := access.value]) else t;
      var t2 := if Truthy(refresh) then t1.(refreshToken := refresh, storage := t1.storage[REFRESH_KEY := refresh.value]) else t1;
      var t3 := if Truthy(user) then t2.(storage := t2.storage[USER_KEY := user.value]) else t2;
      Some(t3)
  }

  /** Saving the same answer twice is saving it once. */
  lemma SavedIdempotent(t: TokenState, response: Json)
    requires !response.Null?
    ensures Saved(Saved(t, response).value, response) == Saved(t, response)
  {
    var once := Saved(t, response).value;
    var twice := Saved(once, response).value;
    assert twice.storage == once.storage by {
      forall k
        ensures Get(twice.storage, k) == Get(once.storage, k)
      {
        if k != TOKEN_KEY && k != REFRESH_KEY && k != USER_KEY {
          assert Get(twice.storage, k) == Get(once.storage, k);
        }
      }
      SameGets(twice.storage, once.storage);
    }
  }

  /** Two maps that answer every lookup alike are equal. */
  lemma SameGets(m: map<string, string>, n: map<string, string>)
    requires forall k :: Get(m, k) == Get(n, k)
    ensures m == n
  {
    assert m.Keys == n.Keys by {
      forall k | k in m ensures k in n { assert Get(m, k).Some?; }
      forall k | k in n ensures k in m { assert Get(n, k).Some?; }
    }
    forall k | k in m ensures m[k] == n[k] { assert Get(m, k) == Get(n, k); }
  }

  /** `logout`: both tokens forgotten, the three keys removed, the rest of storage kept. */
  function LoggedOutOf(t: TokenState): (r: TokenState)
    ensures r.accessToken.None? && r.refreshToken.None?
    ensures TOKEN_KEY !in r.storage && REFRESH_KEY !in r.storage && USER_KEY !in r.storage
    ensures OthersKept(r.storage, t.storage)
    ensures MirroredState(r)
  {
    TokenState(None, None, t.storage - {TOKEN_KEY, REFRESH_KEY, USER_KEY})
  }

  /**
   * The session after one `_fetch`: a 401 on an `auth` request while a
   * refresh token is held leaves `Saved` of an accepted refresh answer, or
   * `LoggedOutOf` the old session after a refused one; any other request
   * leaves the session as it was.
   */
  function AfterFetch(t: TokenState, auth: bool, script: Script): (r: TokenState)
    ensures OthersKept(r.storage, t.storage)
    ensures MirroredState(t) ==> MirroredState(r)
    ensures !auth || !Truthy(t.refreshToken) || !(script.first.Http? && script.first.status == 401) ==> r == t
  {
    if auth && script.first.Http? && script.first.status == 401 && Truthy(t.refreshToken) then
      if RefreshAccepted(script.refresh) then Saved(t, script.refresh.body.value).value else LoggedOutOf(t)
    else t
  }

  // ---------------------------------------------------------------- client

  /**
   * The module variables `accessToken` and `refreshToken` of the client,
   * with the part of localStorage the client owns.
   */
  class ApiClient {
    const baseUrl: string
    var accessToken: Option<string>
    var refreshToken: Option<string>
    var storage: map<string, string>

    /** Loading the script: the tokens are read from storage once. */
    constructor (hostname: string, stored: map<string, string>)
      ensures baseUrl == ApiBaseUrl(hostname) && storage == stored
      ensures accessToken == Get(stored, TOKEN_KEY) && refreshToken == Get(stored, REFRESH_KEY)
      ensures Mirrored()
    {
      baseUrl := ApiBaseUrl(hostname);
      storage := stored;
      accessToken := Get(stored, TOKEN_KEY);
      refreshToken := Get(stored, REFRESH_KEY);
    }

    function State(): TokenState
      reads this
    {
      TokenState(accessToken, refreshToken, storage)
    }

    predicate Mirrored()
      reads this
    {
      MirroredState(State())
    }

    /** Nothing of the session is left, in memory or in storage. */
    predicate LoggedOut()
      reads this
    {
      && accessToken.None? && refreshToken.None?
      && TOKEN_KEY !in storage && REFRESH_KEY !in storage && USER_KEY !in storage
    }

    /** `isLoggedIn`: `!!accessToken`. */
    function IsLoggedIn(): (loggedIn: bool)
      reads this
      ensures loggedIn <==> accessToken.Some? && accessToken.value != ""
      ensures LoggedOut() ==> !loggedIn
    {
      Truthy(accessToken)
    }

    /** `getUser`: the stored user text, `null` when absent or empty (its parsing is not modelled). */
    function GetUser(): (user: Option<string>)
      reads this
      ensures user.Some? <==> Truthy(Get(storage, USER_KEY))
      ensures user.Some? ==> user == Get(storage, USER_KEY)
    {
      if Truthy(Get(storage, USER_KEY)) then Get(storage, USER_KEY) else None
    }

    /** `logout`: removes the three keys and forgets both tokens. */
    method Logout()
      modifies this
      ensures State() == LoggedOutOf(old(State()))
      ensures LoggedOut() && Mirrored() && !IsLoggedIn()
    {
      storage := storage - {TOKEN_KEY, REFRESH_KEY, USER_KEY};
      accessToken := None;
      refreshToken := None;
    }

    /**
     * `_saveTokens`: throws on a `null` response before writing anything
     * (`saved` is false); otherwise writes what `Saved` describes.
     */
    method SaveTokens(response: Json) returns (saved: bool)
      modifies this
      ensures saved <==> !response.Null?
      ensures saved ==> State() == Saved(old(State()), response).value
      ensures !saved ==> unchanged(this)
      ensures old(Mirrored()) ==> Mirrored()
    {
      if response.Null? {
        return false;
      }
      var access := Prop(response, "accessToken");
      if Truthy(access) {
        accessToken := access;
        storage := storage[TOKEN_KEY := access.value];
      }
      var refresh := Prop(response, "refreshToken");
      if Truthy(refresh) {
        refreshToken := refresh;
        storage := storage[REFRESH_KEY := refresh.value];
      }
      var user := Prop(response, "user");
      if Truthy(user) {
        storage := storage[USER_KEY := user.value];
      }
      saved := true;
    }

    /**
     * `_refreshTokens`: without a refresh token it reports failure and
     * touches nothing; otherwise it posts the token once, saves the tokens
     * of a 2xx JSON answer, and logs out on any other outcome, including a
     * `_saveTokens` that throws.
     */
    method RefreshTokens(answer: Exchange) returns (refreshed: bool, sent: seq<Request>)
      modifies this
      ensures !Truthy(old(refreshToken)) ==>
                !refreshed && sent == [] && unchanged(this)
      ensures Truthy(old(refreshToken)) ==>
                sent == [Request("POST", baseUrl + "/auth/refresh", None, Some(RefreshBody(old(refreshToken).value)))]
      ensures refreshed <==> Truthy(old(refreshToken)) && RefreshAccepted(answer)
      ensures refreshed ==> State() == Saved(old(State()), answer.body.value).value
      ensures Truthy(old(refreshToken)) && !refreshed ==> State() == LoggedOutOf(old(State())) && LoggedOut()
      ensures old(Mirrored()) ==> Mirrored()
    {
      if !Truthy(refreshToken) {
        return false, [];
      }
      sent := [Request("POST", baseUrl + "/auth/refresh", None, Some(RefreshBody(refreshToken.value)))];
      if answer.Http? && IsOk(answer.status) && answer.body.Some? {
        var saved := SaveTokens(answer.body.value);
        if saved {
          return true, sent;
        }
      }
      Logout();
      refreshed := false;
    }

    /** A 401 on an authenticated request with a refresh token in hand triggers the refresh. */
    function WillRefresh(options: Options, first: Exchange): (refresh: bool)
      reads this
      ensures refresh ==> Checked(first).Err?
      ensures !options.auth || !Truthy(refreshToken) ==> !refresh
    {
      first.Http? && first.status == 401 && Truthy(refreshToken) && options.auth
    }

    /**
     * `_fetch`: sends the request, with a Bearer header only for `auth`
     * requests while an access token is held. A 401 on an `auth` request
     * with a refresh token leads to one refresh; if that succeeds the same
     * request is sent once more with the token now held and its body is the
     * result, status unchecked. Otherwise (also after a failed refresh,
     * which logs out) the first answer decides: a network failure or a
     * non-2xx status is an Error, a 2xx status yields the parsed body.
     */
    method Fetch(endpoint: string, options: Options, script: Script) returns (result: Result<Json>, sent: seq<Request>)
      modifies this
      ensures 1 <= |sent| <= 3
      ensures sent[0] == Request(MethodOf(options), baseUrl + endpoint,
                                 if options.auth && old(IsLoggedIn()) then Some(BearerHeader(old(accessToken))) else None,
                                 options.body)
      ensures |sent| >= 2 <==> old(WillRefresh(options, script.first))
      ensures |sent| >= 2 ==> sent[1] == Request("POST", baseUrl + "/auth/refresh", None, Some(RefreshBody(old(refreshToken).value)))
      ensures |sent| == 3 <==> old(WillRefresh(options, script.first)) && RefreshAccepted(script.refresh)
      ensures |sent| == 3 ==> State() == Saved(old(State()), script.refresh.body.value).value
      ensures |sent| == 3 ==> sent[2] == sent[0].(authorization := Some(BearerHeader(accessToken)))
      ensures |sent| == 3 && Truthy(Prop(script.refresh.body.value, "accessToken")) ==>
                sent[2].authorization == Some(BearerHeader(Prop(script.refresh.body.value, "accessToken")))
      ensures |sent| == 3 ==> result == Unchecked(script.retry)
      ensures |sent| < 3 ==> result == Checked(script.first)
      ensures |sent| == 2 ==> State() == LoggedOutOf(old(State())) && LoggedOut()
      ensures |sent| == 1 ==> unchanged(this)
      ensures State() == AfterFetch(old(State()), options.auth, script)
      ensures old(Mirrored()) ==> Mirrored()
    {
      var url := baseUrl + endpoint;
      var verb := MethodOf(options);
      var authorization := if options.auth && Truthy(accessToken) then Some(BearerHeader(accessToken)) else None;
      sent := [Request(verb, url, authorization, options.body)];
      if script.first.NetworkError? {
        return Err(script.first.reason), sent;
      }
      if script.first.status == 401 && Truthy(refreshToken) && options.auth {
        var refreshed, refreshSent := RefreshTokens(script.refresh);
        sent := sent + refreshSent;
        if refreshed {
          var retry := Request(verb, url, Some(BearerHeader(accessToken)), options.body);
          sent := sent + [retry];
          return Unchecked(script.retry), sent;
        }
      }
      result := Checked(script.first);
    }

    /** `saveVehicle`: an authenticated POST of a SAVED interaction, through `_fetch`. */
    method SaveVehicle(vehicleId: string, script: Script) returns (result: Result<Json>, sent: seq<Request>)
      modifies this
      ensures 1 <= |sent| <= 3
      ensures sent[0] == Request("POST", baseUrl + "/interactions",
                                 if old(IsLoggedIn()) then Some(BearerHeader(old(accessToken))) else None,
                                 Some(SavedBody(vehicleId)))
      ensures |sent| >= 2 <==> script.first.Http? && script.first.status == 401 && Truthy(old(refreshToken))
      ensures |sent| == 3 <==> |sent| >= 2 && RefreshAccepted(script.refresh)
      ensures |sent| == 3 ==> sent[2] == sent[0].(authorization := Some(BearerHeader(accessToken)))
      ensures |sent| == 3 ==> result == Unchecked(script.retry)
      ensures |sent| == 3 ==> State() == Saved(old(State()), script.refresh.body.value).value
      ensures |sent| < 3 ==> result == Checked(script.first)
      ensures |sent| == 2 ==> State() == LoggedOutOf(old(State()))
      ensures |sent| == 1 ==> unchanged(this)
      ensures State() == AfterFetch(old(State()), true, script)
      ensures old(Mirrored()) ==> Mirrored()
    {
      result, sent := Fetch("/interactions", Options(Some("POST"), Some(SavedBody(vehicleId)), true), script);
    }

    /**
     * `login` and `register`: an unauthenticated POST (so no refresh), whose
     * successful body goes through `_saveTokens`; a `null` body makes that
     * throw, and the call fails with nothing written.
     */
    method Authenticate(endpoint: string, body: string, script: Script) returns (result: Result<Json>, sent: seq<Request>)
      modifies this
      ensures sent == [Request("POST", baseUrl + endpoint, None, Some(body))]
      ensures result == Authenticated(script.first)
      ensures result.Err? ==> unchanged(this)
      ensures result.Ok? ==> State() == Saved(old(State()), result.value).value
      ensures result.Ok? && Truthy(Prop(result.value, "accessToken")) ==>
                IsLoggedIn() && accessToken == Prop(result.value, "accessToken")
      ensures old(Mirrored()) ==> Mirrored()
    {
      result, sent := Fetch(endpoint, Options(Some("POST"), Some(body), false), script);
      if result.Ok? {
        var saved := SaveTokens(result.value);
        if !saved {
          result := Err(NullRead("accessToken"));
        }
      }
    }

    /** `login`. */
    method Login(email: string, password: string, script: Script) returns (result: Result<Json>, sent: seq<Request>)
      modifies this
      ensures sent == [Request("POST", baseUrl + "/auth/login", None, Some(LoginBody(email, password)))]
      ensures result == Authenticated(script.first)
      ensures result.Err? ==> unchanged(this)
      ensures result.Ok? ==> State() == Saved(old(State()), result.value).value
      ensures result.Ok? && Truthy(Prop(result.value, "accessToken")) ==> IsLoggedIn()
      ensures old(Mirrored()) ==> Mirrored()
    {
      result, sent := Authenticate("/auth/login", LoginBody(email, password), script);
    }

    /** `register`. */
    method Register(email: string, password: string, name: string, script: Script) returns (result: Result<Json>, sent: seq<Request>)
      modifies this
      ensures sent == [Request("POST", baseUrl + "/auth/register", None, Some(RegisterBody(email, password, name)))]
      ensures result == Authenticated(script.first)
      ensures result.Err? ==> unchanged(this)
      ensures result.Ok? ==> State() == Saved(old(State()), result.value).value
      ensures result.Ok? && Truthy(Prop(result.value, "accessToken")) ==> IsLoggedIn()
      ensures old(Mirrored()) ==> Mirrored()
    {
      result, sent := Authenticate("/auth/register", RegisterBody(email, password, name), script);
    }
  }

  // ---------------------------------------------------------- query strings

  /** A filter value as a caller passes it: missing, a string, or a number. */
  datatype Field = Unset | Text(text: string) | Number(n: int)

  /** `if (filters.x)`: the empty string and zero are falsy. */
  function IsTruthy(f: Field): (truthy: bool)
    ensures f.Unset? ==> !truthy
    ensures f.Text? ==> (truthy <==> f.text != "")
    ensures f.Number? ==> (truthy <==> f.n != 0)
    ensures truthy ==> FieldText(f) != ""
  {
    match f
    case Unset => false
    case Text(s) => s != ""
    case Number(n) => n != 0
  }

  /** The text `URLSearchParams.append` stores for a value. */
  function FieldText(f: Field): string {
    match f
    case Unset => "undefined"
    case Text(s) => s
    case Number(n) => IntString(n)
  }

  datatype Param = Param(key: string, value: string)

  function ParamOf(entry: (string, Field)): Param {
    Param(entry.0, FieldText(entry.1))
  }

  /** Every entry as a parameter, in order. */
  function AllParams(entries: seq<(string, Field)>): (ps: seq<Param>)
    ensures |ps| == |entries|
  {
    if entries == [] then [] else [ParamOf(entries[0])] + AllParams(entries[1..])
  }

  /** `xs` is `ys` with some elements left out, the rest in the same order. */
  predicate Subsequence(xs: seq<Param>, ys: seq<Param>) {
    if xs == [] then true
    else if ys == [] then false
    else (xs[0] == ys[0] && Subsequence(xs[1..], ys[1..])) || Subsequence(xs, ys[1..])
  }

  /**
   * A run of `if (filters.k) params.append(k, filters.k)`: one parameter
   * per truthy entry, none for the others, in the entries' order.
   */
  function Present(entries: seq<(string, Field)>): (ps: seq<Param>)
    ensures |ps| <= |entries|
    ensures ps == [] <==> forall i :: 0 <= i < |entries| ==> !IsTruthy(entries[i].1)
    ensures forall p :: p in ps ==> exists i :: 0 <= i < |entries| && IsTruthy(entries[i].1) && p == ParamOf(entries[i])
    ensures forall i :: 0 <= i < |entries| && IsTruthy(entries[i].1) ==> ParamOf(entries[i]) in ps
    ensures Subsequence(ps, AllParams(entries))
  {
    if entries == [] then []
    else
      var rest := Present(entries[1..]);
      assert forall i :: 1 <= i < |entries| ==> entries[i] == entries[1..][i - 1];
      if IsTruthy(entries[0].1) then [ParamOf(entries[0])] + rest else rest
  }

  function Pair(p: Param): string {
    p.key + "=" + p.value
  }

  /** `params.toString()`: the pairs joined by "&" (percent-encoding is not modelled). */
  function Query(ps: seq<Param>): (q: string)
    ensures q == "" <==> ps == []
  {
    if ps == [] then ""
    else if |ps| == 1 then Pair(ps[0])
    else Pair(ps[0]) + "&" + Query(ps[1..])
  }

  /** The first parameter's pair opens the query string. */
  lemma QueryStartsWithFirst(ps: seq<Param>)
    requires ps != []
    ensures |Pair(ps[0])| <= |Query(ps)| && Query(ps)[..|Pair(ps[0])|] == Pair(ps[0])
  {
  }

  datatype VehicleFilters = VehicleFilters(page: Field, limit: Field, make: Field, model: Field, priceMin: Field, priceMax: Field)

  const VEHICLE_KEYS := ["page", "limit", "make", "model", "priceMin", "priceMax"]

  /** The filters `getVehicles` looks at, in the order it appends them, each under its own name. */
  function VehicleEntries(f: VehicleFilters): seq<(string, Field)> {
    [("page", f.page), ("limit", f.limit), ("make", f.make), ("model", f.model), ("priceMin", f.priceMin), ("priceMax", f.priceMax)]
  }

  /** Each entry is the filter of its name, and the names come in the order the source appends them. */
  lemma VehicleEntriesOrder(f: VehicleFilters)
    ensures |VehicleEntries(f)| == |VEHICLE_KEYS|
    ensures forall i :: 0 <= i < |VehicleEntries(f)| ==> VehicleEntries(f)[i].0 == VEHICLE_KEYS[i]
    ensures VehicleEntries(f)[0].1 == f.page && VehicleEntries(f)[1].1 == f.limit && VehicleEntries(f)[2].1 == f.make
    ensures VehicleEntries(f)[3].1 == f.model && VehicleEntries(f)[4].1 == f.priceMin && VehicleEntries(f)[5].1 == f.priceMax
  {
  }

  /** The path `getVehicles` requests: "?" and the query only when some filter is truthy. */
  function VehiclesPath(f: VehicleFilters): (path: string)
    ensures path == "/vehicles" <==>
              !IsTruthy(f.page) && !IsTruthy(f.limit) && !IsTruthy(f.make) &&
              !IsTruthy(f.model) && !IsTruthy(f.priceMin) && !IsTruthy(f.priceMax)
    ensures path != "/vehicles" ==> path == "/vehicles?" + Query(Present(VehicleEntries(f)))
  {
    var ps := Present(VehicleEntries(f));
    var query := Query(ps);
    VehicleEntriesTruthy(f);
    if query == "" then "/vehicles"
    else
      var path := "/vehicles?" + query;
      assert |path| > 9;
      path
  }

  lemma VehicleEntriesTruthy(f: VehicleFilters)
    ensures (forall i :: 0 <= i < |VehicleEntries(f)| ==> !IsTruthy(VehicleEntries(f)[i].1)) <==>
              !IsTruthy(f.page) && !IsTruthy(f.limit) && !IsTruthy(f.make) &&
              !IsTruthy(f.model) && !IsTruthy(f.priceMin) && !IsTruthy(f.priceMax)
  {
    var es := VehicleEntries(f);
    assert es[0].1 == f.page && es[1].1 == f.limit && es[2].1 == f.make;
    assert es[3].1 == f.model && es[4].1 == f.priceMin && es[5].1 == f.priceMax;
  }

  datatype SearchFilters = SearchFilters(limit: Field, priceMin: Field, priceMax: Field, yearMin: Field,
                                         yearMax: Field, make: Field, bodyType: Field, condition: Field)

  const SEARCH_KEYS := ["limit", "priceMin", "priceMax", "yearMin", "yearMax", "make", "bodyType", "condition"]

  /** The filters `search` looks at after `q`, in the order it appends them, each under its own name. */
  function SearchEntries(f: SearchFilters): seq<(string, Field)> {
    [("limit", f.limit), ("priceMin", f.priceMin), ("priceMax", f.priceMax), ("yearMin", f.yearMin),
     ("yearMax", f.yearMax), ("make", f.make), ("bodyType", f.bodyType), ("condition", f.condition)]
  }

  /** Each entry is the filter of its name, and the names come in the order the source appends them. */
  lemma SearchEntriesOrder(f: SearchFilters)
    ensures |SearchEntries(f)| == |SEARCH_KEYS|
    ensures forall i :: 0 <= i < |SearchEntries(f)| ==> SearchEntries(f)[i].0 == SEARCH_KEYS[i]
    ensures SearchEntries(f)[0].1 == f.limit && SearchEntries(f)[1].1 == f.priceMin && SearchEntries(f)[2].1 == f.priceMax
    ensures SearchEntries(f)[3].1 == f.yearMin && SearchEntries(f)[4].1 == f.yearMax && SearchEntries(f)[5].1 == f.make
    ensures SearchEntries(f)[6].1 == f.bodyType && SearchEntries(f)[7].1 == f.condition
  {
  }

  /** The path `search` requests: `q` always comes first, then the truthy filters. */
  function SearchPath(q: string, f: SearchFilters): (path: string)
    ensures var head := "/search?q=" + q; |head| <= |path| && path[..|head|] == head
    ensures path == "/search?" + Query([Param("q", q)] + Present(SearchEntries(f)))
  {
    var ps := [Param("q", q)] + Present(SearchEntries(f));
    QueryStartsWithFirst(ps);
    "/search?" + Query(ps)
  }
}
