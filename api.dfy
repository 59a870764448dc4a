/**
 * The shared HTTP client: a request interceptor that attaches the stored
 * bearer credential to every outgoing request, and the fixed endpoint helpers.
 */
module Api {
  import opened Records

  datatype Method = GET | POST | PUT | DELETE

  /** What a call site asks the client for: a method, a path below the base URL, a body. */
  datatype Call = Call(verb: Method, path: string, body: Body)

  /** A request as it leaves the client, after interception. */
  datatype Request = Request(verb: Method, url: string, headers: map<string, string>, body: Body)

  const Authorization := "Authorization"

  /** `if (token)`: a stored credential counts only when it is a non-empty string. */
  predicate HasToken(token: Option<string>)
  {
    token.Some? && token.value != ""
  }

  /** The header map the interceptor leaves behind, given the stored credential. */
  function WithBearer(headers: map<string, string>, token: Option<string>): (r: map<string, string>)
    ensures HasToken(token) ==> Authorization in r && r[Authorization] == "Bearer " + token.value
    ensures !HasToken(token) ==> r == headers
    ensures r.Keys == headers.Keys + (if HasToken(token) then {Authorization} else {})
    ensures forall k :: k in headers && k != Authorization ==> r[k] == headers[k]
  {
    if HasToken(token) then headers[Authorization := "Bearer " + token.value] else headers
  }

  /** Once a credential is attached, intercepting again with the same credential changes nothing. */
  lemma WithBearerIdempotent(headers: map<string, string>, token: Option<string>)
    ensures WithBearer(WithBearer(headers, token), token) == WithBearer(headers, token)
  {
  }

  /** The mutable request configuration axios passes through its interceptors. */
  class RequestConfig {
    var verb: Method
    var url: string
    var headers: map<string, string>
    var body: Body

    constructor (verb: Method, url: string, headers: map<string, string>, body: Body)
      ensures this.verb == verb && this.url == url && this.headers == headers && this.body == body
    {
      this.verb := verb;
      this.url := url;
      this.headers := headers;
      this.body := body;
    }

    function Snapshot(): Request
      reads this
    {
      Request(verb, url, headers, body)
    }
  }

  /**
   * The request interceptor: with a credential stored it sets the
   * `Authorization` header in place, and it hands back the same config.
   */
  method Intercept(config: RequestConfig, token: Option<string>) returns (r: RequestConfig)
    modifies config
    ensures r == config
    ensures config.headers == WithBearer(old(config.headers), token)
    ensures config.verb == old(config.verb) && config.url == old(config.url)
    ensures config.body == old(config.body)
  {
    if HasToken(token) {
      config.headers := config.headers[Authorization := "Bearer " + token.value];
    }
    r := config;
  }

  /** The request a call becomes once the interceptor has seen it. */
  function Dispatched(call: Call, headers: map<string, string>, token: Option<string>): Request
  {
    Request(call.verb, call.path, WithBearer(headers, token), call.body)
  }

  function RegisterUser(userData: Body): Call { Call(POST, "/auth/register", userData) }
  function LoginUser(userData: Body): Call { Call(POST, "/auth/login", userData) }
  function FetchPoems(): Call { Call(GET, "/poems", NoBody) }
  function FetchPoemById(id: string): Call { Call(GET, "/poems/" + id, NoBody) }
  function GetProfile(): Call { Call(GET, "/users/me", NoBody) }
  function GetSubscriptionStatus(): Call { Call(GET, "/subscribe/status", NoBody) }

  /** The headers a request made without headers of its own leaves with. */
  function BearerOnly(token: Option<string>): map<string, string>
  {
    if HasToken(token) then map[Authorization := "Bearer " + token.value] else map[]
  }

  /**
   * Every helper goes through the shared client, so each leaves with the
   * stored credential attached when there is one: the auth helpers post the
   * caller's data, the read helpers are bodiless GETs.
   */
  lemma HelperRoutes(userData: Body, id: string, token: Option<string>)
    ensures Dispatched(RegisterUser(userData), map[], token) == Request(POST, "/auth/register", BearerOnly(token), userData)
    ensures Dispatched(LoginUser(userData), map[], token) == Request(POST, "/auth/login", BearerOnly(token), userData)
    ensures Dispatched(FetchPoems(), map[], token) == Request(GET, "/poems", BearerOnly(token), NoBody)
    ensures Dispatched(FetchPoemById(id), map[], token) == Request(GET, "/poems/" + id, BearerOnly(token), NoBody)
    ensures Dispatched(GetProfile(), map[], token) == Request(GET, "/users/me", BearerOnly(token), NoBody)
    ensures Dispatched(GetSubscriptionStatus(), map[], token) == Request(GET, "/subscribe/status", BearerOnly(token), NoBody)
  {
  }

  /** Different poem ids are fetched from different URLs. */
  lemma FetchPoemByIdInjective(a: string, b: string)
    requires FetchPoemById(a) == FetchPoemById(b)
    ensures a == b
  {
    assert a == FetchPoemById(a).path[|"/poems/"|..];
    assert b == FetchPoemById(b).path[|"/poems/"|..];
  }
}
