/**
 * The shared axios instance of the client: the request interceptor that attaches the
 * bearer token, the success interceptor that accepts only envelopes with code 200,
 * and the error interceptor that turns every failure into one message and tears the
 * session down on HTTP 401.
 */
module Request {
  import opened Wrappers
  import opened Strings
  import opened LocalStorage
  import opened Http

  const ServiceBase := "http://101.37.83.215:8082"

  const BackendFailedMessage := "后端返回错误"
  const NotSentMessage := "请求未发出，可能是axios配置错误"
  const UnauthorizedMessage := "登录已过期或未授权，请重新登录"
  const NoResponseMessage := "后端无响应，请检查后端是否启动或地址是否正确"
  const RequestFailedMessage := "请求失败"
  const InterfaceAbnormal := "接口异常"

  /**
   * How an interceptor's promise rejects: with `new Error(message)`, or with whatever
   * the interceptor itself threw (a TypeError on a `null` or missing value, or the
   * exception of a storage that refuses access).
   */
  datatype Rejection = Rejected(message: string) | HandlerThrew

  /**
   * The request interceptor: when storage holds a non-empty `auth_token`, the
   * `Authorization` header of the config becomes `Bearer <token>`; otherwise the config
   * is left as it is. `ok` is false when the interceptor throws — storage refuses
   * access, or there is a token but the config has no headers object — and then the
   * config is unchanged.
   */
  method AttachToken(b: Browser, config: Config) returns (ok: bool)
    modifies config
    ensures ok <==> b.storageOk && (!Truthy(GetItem(b.store, AuthTokenKey)) || old(config.headers).Some?)
    ensures config.headers ==
      if ok && Truthy(GetItem(b.store, AuthTokenKey))
      then Some(old(config.headers).value[Authorization := BearerCredentials(GetItem(b.store, AuthTokenKey).value)])
      else old(config.headers)
    ensures ok && Truthy(GetItem(b.store, AuthTokenKey)) ==>
      BearerToken(config.headers.value[Authorization]) == GetItem(b.store, AuthTokenKey)
  {
    if !b.storageOk {
      return false;
    }
    var token := GetItem(b.store, AuthTokenKey);
    if Truthy(token) {
      if config.headers.None? {
        return false;
      }
      config.headers := Some(config.headers.value[Authorization := BearerCredentials(token.value)]);
      BearerRoundTrip(token.value);
    }
    return true;
  }

  /**
   * The success interceptor: an envelope whose `code` is 200 resolves to the envelope
   * itself (not the transport response); any other envelope rejects with its `msg`, or
   * `后端返回错误` when it has none; a missing body makes the interceptor throw.
   */
  function OnResponse(resp: Response): (r: Result<Envelope, Rejection>)
    ensures r.Success? <==> resp.data.Some? && resp.data.value.code == Some(200)
    ensures r.Success? ==> r.value == resp.data.value
    ensures resp.data.Some? && r.Failure? ==>
      r.error == Rejected(if resp.data.value.msg != "" then resp.data.value.msg else BackendFailedMessage)
    ensures resp.data.None? ==> r == Failure(HandlerThrew)
  {
    match resp.data
    case None => Failure(HandlerThrew)
    case Some(res) =>
      if res.code != Some(200) then Failure(Rejected(if res.msg != "" then res.msg else BackendFailedMessage))
      else Success(res)
  }

  /** `${status}`: the decimal status, or `undefined` when there is none. */
  function StatusText(status: Option<nat>): (t: string)
    ensures status.Some? ==> AllDigits(t) && DecimalValue(t) == status.value
    ensures status.Some? ==> t == Decimal(status.value)
    ensures status.None? ==> t == "undefined"
  {
    match status
    case Some(n) => DecimalRoundTrip(n); Decimal(n)
    case None => "undefined"
  }

  /** `后端错误（status）: msg|statusText|接口异常` for a response with an error status. */
  function ResponseMessage(resp: ErrorResponse): (m: string)
    ensures StartsWith(m, "后端错误（" + StatusText(resp.status) + "）: ")
    ensures resp.dataMsg != "" ==> m == "后端错误（" + StatusText(resp.status) + "）: " + resp.dataMsg
    ensures resp.dataMsg == "" && resp.statusText != "" ==> m == "后端错误（" + StatusText(resp.status) + "）: " + resp.statusText
    ensures resp.dataMsg == "" && resp.statusText == "" ==> m == "后端错误（" + StatusText(resp.status) + "）: " + InterfaceAbnormal
  {
    var detail :=
      if resp.dataMsg != "" then resp.dataMsg
      else if resp.statusText != "" then resp.statusText
      else InterfaceAbnormal;
    var m := "后端错误（" + StatusText(resp.status) + "）: " + detail;
    assert m[..|"后端错误（" + StatusText(resp.status) + "）: "|] == "后端错误（" + StatusText(resp.status) + "）: ";
    m
  }

  /**
   * The message the error interceptor rejects with, tried in order: no error value at
   * all; a response was received (401 has its own message); a request was made but
   * nothing came back; anything else (the error's own message, or `请求失败`).
   * A `null` error makes the interceptor throw.
   */
  function Classify(err: Thrown): (r: Rejection)
    ensures r.HandlerThrew? <==> err.Null?
    ensures err.Undefined? ==> r == Rejected(NotSentMessage)
    ensures StatusUnauthorized(err) ==> r == Rejected(UnauthorizedMessage)
    ensures err.Obj? && err.response.Some? && !StatusUnauthorized(err) ==>
      r == Rejected(ResponseMessage(err.response.value))
    ensures err.Obj? && err.response.None? && err.request ==> r == Rejected(NoResponseMessage)
    ensures err.Obj? && err.response.None? && !err.request ==>
      r == Rejected(if err.message != "" then err.message else RequestFailedMessage)
    ensures err.Primitive? ==> r == Rejected(RequestFailedMessage)
  {
    match err
    case Undefined => Rejected(NotSentMessage)
    case Null => HandlerThrew
    case Primitive => Rejected(RequestFailedMessage)
    case Obj(_, message, response, request) =>
      if response.Some? then
        if response.value.status == Some(401) then Rejected(UnauthorizedMessage)
        else Rejected(ResponseMessage(response.value))
      else if request then Rejected(NoResponseMessage)
      else Rejected(if message != "" then message else RequestFailedMessage)
  }

  /** A received response decides the message, whether or not a request is also recorded. */
  lemma ResponseBeforeRequest(err: Thrown, request: bool)
    requires err.Obj? && err.response.Some?
    ensures Classify(err.(request := request)) == Classify(err)
  {
  }

  /** Without a response, a recorded request decides the message, whatever the error says of itself. */
  lemma RequestBeforeOther(err: Thrown, message: string, isError: bool)
    requires err.Obj? && err.response.None? && err.request
    ensures Classify(err.(message := message, isError := isError)) == Rejected(NoResponseMessage)
  {
  }

  /** A 401 is reported with the session-expired message, whatever the body or status text say. */
  lemma UnauthorizedIgnoresBody(err: Thrown, dataMsg: string, statusText: string)
    requires StatusUnauthorized(err)
    ensures Classify(err.(response := Some(err.response.value.(dataMsg := dataMsg, statusText := statusText))))
      == Rejected(UnauthorizedMessage)
  {
  }

  /** Distinct statuses are rendered differently, so a response message tells them apart. */
  lemma ResponseMessageShowsStatus(r1: ErrorResponse, r2: ErrorResponse)
    requires r1.status.Some? && r2.status.Some? && r1.status != r2.status
    ensures StatusText(r1.status) != StatusText(r2.status)
  {
  }

  /** The 401 teardown of this client: drop the token and load `/login`, even from `/login`. */
  function ForcedTeardown(w: Window): (t: Window)
    requires w.storageOk
    ensures AuthTokenKey !in t.store && t.path == "/login" && t.navigations == w.navigations + 1
    ensures t.storageOk == w.storageOk
    ensures forall k :: k != AuthTokenKey ==> (k in t.store <==> k in w.store)
    ensures forall k :: k in t.store ==> k in w.store && t.store[k] == w.store[k]
  {
    w.(store := w.store - {AuthTokenKey}, path := "/login", navigations := w.navigations + 1)
  }

  /** The browser state after the error interceptor: only a 401 with working storage changes it. */
  function AfterResponseError(w: Window, err: Thrown): (t: Window)
    ensures !StatusUnauthorized(err) || !w.storageOk ==> t == w
    ensures StatusUnauthorized(err) && w.storageOk ==> t == ForcedTeardown(w)
  {
    if StatusUnauthorized(err) && w.storageOk then ForcedTeardown(w) else w
  }

  /**
   * The error interceptor as it runs: it rejects with the classified message; on a 401 it
   * first removes `auth_token` and sends the browser to `/login`. When storage refuses the
   * removal, that exception is the rejection and the browser stays where it is.
   */
  method OnResponseError(b: Browser, err: Thrown) returns (r: Rejection)
    modifies b
    ensures r == if StatusUnauthorized(err) && !old(b.storageOk) then HandlerThrew else Classify(err)
    ensures b.State() == AfterResponseError(old(b.State()), err)
  {
    r := Classify(err);
    if StatusUnauthorized(err) {
      var ok := b.RemoveItem(AuthTokenKey);
      if !ok {
        return HandlerThrew;
      }
      b.Assign("/login");
    }
  }

  /**
   * Unlike the guarded teardown of the global client, this one is not idempotent: every
   * 401 starts another load of `/login`, although storage and path settle after the first.
   */
  lemma ForcedTeardownReloadsEachTime(w: Window)
    requires w.storageOk
    ensures ForcedTeardown(ForcedTeardown(w)).store == ForcedTeardown(w).store
    ensures ForcedTeardown(ForcedTeardown(w)).path == ForcedTeardown(w).path
    ensures ForcedTeardown(ForcedTeardown(w)).navigations == ForcedTeardown(w).navigations + 1
  {
    assert ForcedTeardown(w).store - {AuthTokenKey} == ForcedTeardown(w).store;
  }
}
