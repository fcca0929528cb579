/**
 * The global axios defaults and interceptors, and the bank-user and finance
 * operations: which method and path each one requests.
 */
module Api {
  import opened Wrappers
  import opened Strings
  import opened LocalStorage
  import opened Http
  import Request

  const DefaultBaseUrl := "http://localhost:8082"

  /** `import.meta.env.VITE_API_BASE_URL || 'http://localhost:8082'`. */
  function BaseUrl(env: Option<string>): (u: string)
    ensures u != ""
    ensures Truthy(env) ==> u == env.value
    ensures !Truthy(env) ==> u == DefaultBaseUrl
  {
    if Truthy(env) then env.value else DefaultBaseUrl
  }

  /**
   * The global request interceptor: with a non-empty `auth_token` the config gets a
   * headers object if it had none and `Authorization: Bearer <token>` in it; a storage
   * that refuses access is ignored; the config is always passed on.
   */
  method AttachToken(b: Browser, config: Config)
    modifies config
    ensures config.headers ==
      if b.storageOk && Truthy(GetItem(b.store, AuthTokenKey))
      then Some((if old(config.headers).Some? then old(config.headers).value else map[])
                [Authorization := BearerCredentials(GetItem(b.store, AuthTokenKey).value)])
      else old(config.headers)
  {
    if !b.storageOk {
      return;
    }
    var token := GetItem(b.store, AuthTokenKey);
    if Truthy(token) {
      var headers := if config.headers.Some? then config.headers.value else map[];
      config.headers := Some(headers[Authorization := BearerCredentials(token.value)]);
    }
  }

  /** `data && typeof data === 'object' && data.code === 401`. */
  predicate EnvelopeUnauthorized(resp: Response) {
    resp.data.Some? && resp.data.value.code == Some(401)
  }

  /**
   * The 401 teardown of the global client: try to remove `auth_token` (a refusing storage
   * is ignored), then go to `/login` unless already there.
   */
  function GuardedTeardown(w: Window): (t: Window)
    ensures t.path == "/login"
    ensures w.storageOk ==> AuthTokenKey !in t.store
    ensures !w.storageOk ==> t.store == w.store
    ensures forall k :: k != AuthTokenKey ==> (k in t.store <==> k in w.store)
    ensures forall k :: k in t.store ==> k in w.store && t.store[k] == w.store[k]
    ensures t.storageOk == w.storageOk
    ensures t.navigations == if w.path == "/login" then w.navigations else w.navigations + 1
  {
    var store := if w.storageOk then w.store - {AuthTokenKey} else w.store;
    if w.path != "/login" then w.(store := store, path := "/login", navigations := w.navigations + 1)
    else w.(store := store)
  }

  /**
   * Once a teardown has taken effect, a second one leaves the browser exactly as it is:
   * no second load of `/login`. The path read is the one after the first teardown.
   */
  lemma GuardedTeardownIdempotent(w: Window)
    ensures GuardedTeardown(GuardedTeardown(w)) == GuardedTeardown(w)
  {
    var t := GuardedTeardown(w);
    if w.storageOk {
      assert t.store - {AuthTokenKey} == t.store;
    }
  }

  /** `if (location.pathname !== '/login') location.href = '/login'`, after removing the token. */
  method Teardown(b: Browser)
    modifies b
    ensures b.State() == GuardedTeardown(old(b.State()))
  {
    var _ := b.RemoveItem(AuthTokenKey);
    if b.path != "/login" {
      b.Assign("/login");
    }
  }

  /**
   * The global success interceptor: an envelope with code 401 tears the session down; the
   * response is returned unchanged either way.
   */
  method OnResponse(b: Browser, resp: Response) returns (r: Response)
    modifies b
    ensures r == resp
    ensures b.State() == if EnvelopeUnauthorized(resp) then GuardedTeardown(old(b.State())) else old(b.State())
  {
    if EnvelopeUnauthorized(resp) {
      Teardown(b);
    }
    return resp;
  }

  /** The global error interceptor: HTTP 401 tears the session down; the same error is rejected again. */
  method OnError(b: Browser, err: Thrown) returns (r: Thrown)
    modifies b
    ensures r == err
    ensures b.State() == if StatusUnauthorized(err) then GuardedTeardown(old(b.State())) else old(b.State())
  {
    if StatusUnauthorized(err) {
      Teardown(b);
    }
    return err;
  }

  /** The HTTP methods the operations use. */
  datatype HttpMethod = Get | Post

  /** A call of one of the bank-user or finance operations, with its argument. */
  datatype Call =
    | Random10BankUsers
    | SearchFarmers(params: map<string, string>)
    | GetBankIdByUserName(userName: string)
    | SubmitFinance(financeData: map<string, string>)

  /** What a call asks the shared client for: method, path, query parameters and JSON body. */
  datatype Outgoing = Outgoing(httpMethod: HttpMethod, path: string, params: map<string, string>, body: Option<map<string, string>>)

  /**
   * The fixed operation table. Every path is under `/api/`; only `submitFinance` posts,
   * and it alone sends a body; the user-name lookup sends exactly `userName`.
   */
  function OutgoingOf(call: Call): (o: Outgoing)
    ensures StartsWith(o.path, "/api/")
    ensures o.httpMethod == Post <==> call.SubmitFinance?
    ensures o.body.Some? <==> call.SubmitFinance?
    ensures call.SubmitFinance? ==> o.body == Some(call.financeData) && o.params == map[]
    ensures call.SearchFarmers? ==> o.params == call.params
    ensures call.GetBankIdByUserName? ==> o.params == map["userName" := call.userName]
    ensures call.Random10BankUsers? ==> o.params == map[]
  {
    match call
    case Random10BankUsers => Outgoing(Get, "/api/bank/user/random10", map[], None)
    case SearchFarmers(params) => Outgoing(Get, "/api/bank/searchFarmers", params, None)
    case GetBankIdByUserName(userName) => Outgoing(Get, "/api/bank/get-id-by-user", map["userName" := userName], None)
    case SubmitFinance(financeData) => Outgoing(Post, "/api/finance/submit", map[], Some(financeData))
  }

  /** Different operations request different paths. */
  lemma OperationPathsDistinct(c1: Call, c2: Call)
    requires OutgoingOf(c1).path == OutgoingOf(c2).path
    ensures c1.Random10BankUsers? == c2.Random10BankUsers?
    ensures c1.SearchFarmers? == c2.SearchFarmers?
    ensures c1.GetBankIdByUserName? == c2.GetBankIdByUserName?
    ensures c1.SubmitFinance? == c2.SubmitFinance?
  {
  }

  /** The operations go through the shared client, not the global defaults: their URLs start with its base. */
  function CallUrl(call: Call): (u: string)
    ensures StartsWith(u, Request.ServiceBase + "/api/")
  {
    var p := OutgoingOf(call).path;
    var u := Request.ServiceBase + p;
    assert u[..|Request.ServiceBase + "/api/"|] == Request.ServiceBase + p[..5];
    u
  }
}
