/**
 * The static-asset client: URL builders for images and avatars, and the upload that
 * falls back once to port 3000 of the same host when the first attempt fails at the
 * network level and the base URL names no port.
 *
 * The transport is an oracle: `first` and `second` are what the POST of each attempt
 * would come back with.
 */
module Asset {
  import opened Wrappers
  import opened Strings
  import opened Http

  const AssetBase := "http://101.37.83.215"
  const UploadPath := "/api/upload"
  const FallbackPort := ":3000"
  const UploadFailedMessage := "上传失败"
  const NoResponseMessage := "网络错误或服务器无响应"
  const NetworkLabel := "网络"

  /** The `type` field of the upload form. */
  datatype AssetType = Image | Avatar

  function TypeField(t: AssetType): string {
    match t
    case Image => "image"
    case Avatar => "avatar"
  }

  /** The body of an upload response; a missing or non-string field is the empty string. */
  datatype UploadEnvelope = UploadEnvelope(success: bool, fileName: string, url: string, message: string)

  /** What one POST comes back with: a response body, or a thrown value (a network error among them). */
  datatype Reply = Received(body: UploadEnvelope) | Threw(err: Thrown)

  /** The value an upload resolves to. */
  datatype Uploaded = Uploaded(fileName: string, url: string)

  /** One POST of the multipart form: the base URL it goes to, the endpoint path and the `type` field. */
  datatype Post = Post(base: string, endpoint: string, kind: string)

  /**
   * One attempt: a received body counts as success only with a truthy `success`,
   * `fileName` and `url`, and yields exactly those two names; any other body throws
   * `new Error(message || '上传失败')`; a thrown value is passed on.
   */
  function Attempt(reply: Reply): (r: Result<Uploaded, Thrown>)
    ensures r.Success? <==> reply.Received? && reply.body.success && reply.body.fileName != "" && reply.body.url != ""
    ensures r.Success? ==> r.value == Uploaded(reply.body.fileName, reply.body.url)
    ensures reply.Received? && r.Failure? ==>
      r.error == NewError(if reply.body.message != "" then reply.body.message else UploadFailedMessage)
    ensures reply.Threw? ==> r == Failure(reply.err)
  {
    match reply
    case Received(body) =>
      if body.success && body.fileName != "" && body.url != "" then Success(Uploaded(body.fileName, body.url))
      else Failure(NewError(if body.message != "" then body.message else UploadFailedMessage))
    case Threw(err) => Failure(err)
  }

  /** `(err as AxiosError)?.message === 'Network Error'`. */
  predicate IsNetworkError(err: Thrown) {
    err.Obj? && err.message == "Network Error"
  }

  /** `s` begins with `http://`. */
  predicate StartsHttp(s: string) {
    |s| >= 7 && s[..7] == "http://"
  }

  /** `s` begins with `https://`. */
  predicate StartsHttps(s: string) {
    |s| >= 8 && s[..8] == "https://"
  }

  /** `s.replace(/https?:\/\//, '')`: removes the first occurrence of `http://` or `https://`. */
  function StripScheme(s: string): (r: string)
    ensures |r| <= |s|
  {
    if StartsHttp(s) then s[7..]
    else if StartsHttps(s) then s[8..]
    else if s == [] then []
    else [s[0]] + StripScheme(s[1..])
  }

  /** A match of `https?:\/\/` starts at position `k` of `s`. */
  predicate SchemeAt(s: string, k: nat)
    requires k <= |s|
  {
    StartsHttp(s[k..]) || StartsHttps(s[k..])
  }

  /** The length of the match starting at `k`: `https://` when it fits there, `http://` otherwise. */
  function SchemeLength(s: string, k: nat): nat
    requires k <= |s|
  {
    if StartsHttps(s[k..]) then 8 else 7
  }

  /** A match at position `k >= 1` of `s` is a match at `k - 1` of `s` without its first character. */
  lemma SchemeAtShift(s: string, k: nat)
    requires 1 <= k <= |s|
    ensures SchemeAt(s, k) == SchemeAt(s[1..], k - 1)
    ensures SchemeLength(s, k) == SchemeLength(s[1..], k - 1)
  {
    assert s[k..] == s[1..][k - 1..];
  }

  /** A string holding no `http://` or `https://` is left as it is. */
  lemma {:induction false} StripSchemeNone(s: string)
    requires forall k :: 0 <= k < |s| ==> !SchemeAt(s, k)
    ensures StripScheme(s) == s
  {
    if s != [] {
      var t := s[1..];
      StripSchemeSkip(s);
      forall k | 0 <= k < |t| ensures !SchemeAt(t, k) {
        SchemeAtShift(s, k + 1);
      }
      StripSchemeNone(t);
    }
  }

  /** StripScheme removes exactly the leftmost match `i` and keeps everything around it. */
  lemma {:induction false} StripSchemeFirst(s: string, i: nat)
    requires i < |s| && SchemeAt(s, i)
    requires forall k :: 0 <= k < i ==> !SchemeAt(s, k)
    ensures i + SchemeLength(s, i) <= |s|
    ensures StripScheme(s) == s[..i] + s[i + SchemeLength(s, i)..]
  {
    if i == 0 {
      StripSchemeAtStart(s);
    } else {
      var t := s[1..];
      StripSchemeSkip(s);
      SchemeAtShift(s, i);
      forall k | 0 <= k < i - 1 ensures !SchemeAt(t, k) {
        SchemeAtShift(s, k + 1);
      }
      StripSchemeFirst(t, i - 1);
      assert s[..i] == [s[0]] + t[..i - 1];
      assert s[i + SchemeLength(s, i)..] == t[i - 1 + SchemeLength(t, i - 1)..];
    }
  }

  /** A match at the very start is the one removed. */
  lemma StripSchemeAtStart(s: string)
    requires s != [] && SchemeAt(s, 0)
    ensures SchemeLength(s, 0) <= |s|
    ensures StripScheme(s) == s[SchemeLength(s, 0)..]
  {
    assert s[0..] == s;
    SchemesExclusive(s);
  }

  /** No string starts with both `http://` and `https://`: their fifth characters differ. */
  lemma SchemesExclusive(s: string)
    ensures !(StartsHttp(s) && StartsHttps(s))
  {
    if |s| >= 8 {
      assert s[..7][4] == s[4] == s[..8][4];
      assert "http://"[4] == ':' && "https://"[4] == 's';
    }
  }

  /** Without a match at the start, the first character is kept and the rest is stripped. */
  lemma StripSchemeSkip(s: string)
    requires s != [] && !SchemeAt(s, 0)
    ensures StripScheme(s) == [s[0]] + StripScheme(s[1..])
  {
    assert s[0..] == s;
  }

  /** The number of ASCII digits at the end of `s`. */
  function TrailingDigits(s: string): (d: nat)
    ensures d <= |s|
    ensures forall i :: |s| - d <= i < |s| ==> IsDigit(s[i])
    ensures d < |s| ==> !IsDigit(s[|s| - d - 1])
  {
    if s != [] && IsDigit(s[|s| - 1]) then 1 + TrailingDigits(s[..|s| - 1]) else 0
  }

  /** `/:\d+$/.test(s)`: `s` ends with a colon followed by at least one digit. */
  predicate HasPort(s: string) {
    var d := TrailingDigits(s);
    0 < d < |s| && s[|s| - d - 1] == ':'
  }

  /** HasPort holds exactly when some colon in `s` is followed by digits alone, at least one. */
  lemma HasPortIff(s: string)
    ensures HasPort(s) <==> exists k :: 0 <= k < |s| - 1 && s[k] == ':' && AllDigits(s[k + 1..])
  {
    var d := TrailingDigits(s);
    if HasPort(s) {
      var k := |s| - d - 1;
      assert AllDigits(s[k + 1..]);
    }
  }

  /** `ASSET_BASE.replace(/\/$/, '') + ':3000'`: the base without one trailing slash, on port 3000. */
  function FallbackBase(base: string): string {
    var trimmed := if base != [] && base[|base| - 1] == '/' then base[..|base| - 1] else base;
    trimmed + FallbackPort
  }

  /** The fallback base is the base with at most one trailing slash dropped, then `:3000`. */
  lemma FallbackBaseShape(base: string)
    ensures var f := FallbackBase(base);
      |f| >= |FallbackPort| && f[|f| - |FallbackPort|..] == FallbackPort
    ensures var host := FallbackBase(base)[..|FallbackBase(base)| - |FallbackPort|];
      if base != [] && base[|base| - 1] == '/' then base == host + "/" else base == host
  {
    var f := FallbackBase(base);
    var host := if base != [] && base[|base| - 1] == '/' then base[..|base| - 1] else base;
    assert f[..|f| - |FallbackPort|] == host;
    assert f[|f| - |FallbackPort|..] == FallbackPort;
  }

  /** Whether a failed first attempt is retried against the fallback base. */
  predicate Retries(base: string, err: Thrown) {
    IsNetworkError(err) && !HasPort(StripScheme(base))
  }

  /** `anyErr?.response?.status`. */
  function ErrorStatus(err: Thrown): Option<nat> {
    if err.Obj? && err.response.Some? then err.response.value.status else None
  }

  /** `anyErr?.response?.data?.message || anyErr?.response?.data?.msg`, empty when both are. */
  function ErrorDataMessage(err: Thrown): string {
    if err.Obj? && err.response.Some? then
      if err.response.value.dataMessage != "" then err.response.value.dataMessage else err.response.value.dataMsg
    else ""
  }

  /**
   * `wrapAxiosError`: an `Error` is passed on unchanged; an object with a truthy
   * status or a response message becomes `Error('[status|网络] message')`; anything
   * else becomes `Error('网络错误或服务器无响应')`.
   */
  function WrapAxiosError(err: Thrown): (e: Thrown)
    ensures e.Obj? && e.isError
    ensures err.Obj? && err.isError ==> e == err
    ensures !err.Obj? ==> e == NewError(NoResponseMessage)
    ensures err.Obj? && !err.isError && (StatusTruthy(ErrorStatus(err)) || ErrorDataMessage(err) != "") ==>
      e == NewError("[" + (if StatusTruthy(ErrorStatus(err)) then Decimal(ErrorStatus(err).value) else NetworkLabel) + "] "
                    + (if ErrorDataMessage(err) != "" then ErrorDataMessage(err)
                       else if err.message != "" then err.message else UploadFailedMessage))
    ensures err.Obj? && !err.isError && !StatusTruthy(ErrorStatus(err)) && ErrorDataMessage(err) == "" ==>
      e == NewError(NoResponseMessage)
  {
    if !err.Obj? || err.isError then
      if err.Obj? then err else NewError(NoResponseMessage)
    else
      var status := ErrorStatus(err);
      var dataMsg := ErrorDataMessage(err);
      if StatusTruthy(status) || dataMsg != "" then
        NewError("[" + (if StatusTruthy(status) then Decimal(status.value) else NetworkLabel) + "] "
                 + (if dataMsg != "" then dataMsg else if err.message != "" then err.message else UploadFailedMessage))
      else NewError(NoResponseMessage)
  }

  /** The outcome of an attempt as the caller sees it: a success, or the wrapped error. */
  function Settle(r: Result<Uploaded, Thrown>): (s: Result<Uploaded, Thrown>)
    ensures s.Success? <==> r.Success?
    ensures s.Success? ==> s == r
    ensures s.Failure? ==> s.error == WrapAxiosError(r.error)
  {
    match r
    case Success(_) => r
    case Failure(err) => Failure(WrapAxiosError(err))
  }

  /** What a whole upload call does: the POSTs it makes, in order, and what it resolves or rejects with. */
  datatype Upload = Upload(posts: seq<Post>, result: Result<Uploaded, Thrown>)

  /** The specification of `uploadAsset(kind, file)` against a base URL and the replies of its attempts. */
  function UploadSpec(kind: AssetType, base: string, first: Reply, second: Reply): (u: Upload)
    ensures 1 <= |u.posts| <= 2
    ensures u.posts[0] == Post(base, UploadPath, TypeField(kind))
    ensures |u.posts| == 2 ==> u.posts[1] == Post(FallbackBase(base), UploadPath, TypeField(kind))
    ensures u.result.Failure? ==> u.result.error.Obj? && u.result.error.isError
    ensures u.result == Settle(Attempt(if |u.posts| == 2 then second else first))
  {
    var r1 := Attempt(first);
    var p1 := Post(base, UploadPath, TypeField(kind));
    if r1.Failure? && Retries(base, r1.error) then
      Upload([p1, Post(FallbackBase(base), UploadPath, TypeField(kind))], Settle(Attempt(second)))
    else
      Upload([p1], Settle(r1))
  }

  /**
   * `uploadAsset`: POSTs to the base URL and, when that attempt fails with a network
   * error and the base URL names no port, once more to the fallback base.
   */
  method UploadAsset(kind: AssetType, base: string, first: Reply, second: Reply)
    returns (result: Result<Uploaded, Thrown>, posts: seq<Post>)
    ensures Upload(posts, result) == UploadSpec(kind, base, first, second)
  {
    posts := [Post(base, UploadPath, TypeField(kind))];
    var r := Attempt(first);
    if r.Success? {
      return r, posts;
    }
    var err := r.error;
    if IsNetworkError(err) && !HasPort(StripScheme(base)) {
      var fallback := FallbackBase(base);
      posts := posts + [Post(fallback, UploadPath, TypeField(kind))];
      var r2 := Attempt(second);
      result := Settle(r2);
      assert Retries(base, r.error);
      return result, posts;
    }
    assert !Retries(base, r.error);
    result := Settle(r);
  }

  /** A second POST happens exactly when the first fails with a network error and the base names no port. */
  lemma RetryIff(kind: AssetType, base: string, first: Reply, second: Reply)
    ensures |UploadSpec(kind, base, first, second).posts| == 2 <==>
      Attempt(first).Failure? && IsNetworkError(Attempt(first).error) && !HasPort(StripScheme(base))
  {
  }

  /** A base URL that names a port is never retried, whatever the first attempt does. */
  lemma PortedBaseNeverRetries(kind: AssetType, base: string, first: Reply, second: Reply)
    requires HasPort(StripScheme(base))
    ensures |UploadSpec(kind, base, first, second).posts| == 1
    ensures UploadSpec(kind, base, first, second).result == Settle(Attempt(first))
  {
  }

  /**
   * A body that arrives but is not a success is rejected with its own message (or the
   * generic one) and not retried — unless that message is literally `Network Error`.
   */
  lemma RejectedEnvelopeNotRetried(kind: AssetType, base: string, body: UploadEnvelope, second: Reply)
    requires !(body.success && body.fileName != "" && body.url != "")
    requires body.message != "Network Error"
    ensures UploadSpec(kind, base, Received(body), second) ==
      Upload([Post(base, UploadPath, TypeField(kind))],
             Failure(NewError(if body.message != "" then body.message else UploadFailedMessage)))
  {
  }

  /** A network failure followed by a successful retry resolves to the retry's file name and URL. */
  lemma FallbackSuccess(kind: AssetType, base: string, err: Thrown, body: UploadEnvelope)
    requires IsNetworkError(err) && !HasPort(StripScheme(base))
    requires body.success && body.fileName != "" && body.url != ""
    ensures UploadSpec(kind, base, Threw(err), Received(body)).result == Success(Uploaded(body.fileName, body.url))
    ensures |UploadSpec(kind, base, Threw(err), Received(body)).posts| == 2
  {
  }

  /** The shipped asset host names no port, so its network failures are retried. */
  lemma AssetBaseHasNoPort()
    ensures StripScheme(AssetBase) == "101.37.83.215"
    ensures !HasPort(StripScheme(AssetBase))
    ensures FallbackBase(AssetBase) == "http://101.37.83.215:3000"
  {
    AssetHost();
    HostHasNoPort();
  }

  lemma AssetHost()
    ensures StripScheme(AssetBase) == "101.37.83.215"
  {
    assert StartsHttp(AssetBase) by { assert AssetBase[..7] == "http://"; }
    assert AssetBase[7..] == "101.37.83.215";
  }

  lemma HostHasNoPort()
    ensures TrailingDigits("101.37.83.215") == 3
    ensures !HasPort("101.37.83.215")
  {
    var s := "101.37.83.215";
    assert s[..|s| - 1] == "101.37.83.21";
    assert "101.37.83.21"[..11] == "101.37.83.2";
    assert "101.37.83.2"[..10] == "101.37.83.";
  }

  /** No slash in `x`. */
  predicate NoSlash(x: string) {
    forall i :: 0 <= i < |x| ==> x[i] != '/'
  }

  /** Where `s` starts with a scheme, so does `s + x`, and that scheme is the one removed. */
  lemma SchemeAtStartOfAppend(p: string, x: string)
    requires NoSlash(x)
    ensures StartsHttp(p + x) <==> StartsHttp(p)
    ensures StartsHttps(p + x) <==> StartsHttps(p)
  {
    var s := p + x;
    if |p| < 7 && |s| >= 7 {
      assert s[6] == x[6 - |p|] && s[..7][6] == s[6];
    }
    if |p| < 8 && |s| >= 8 {
      assert s[7] == x[7 - |p|] && s[..8][7] == s[7];
    }
    if |p| >= 7 { assert s[..7] == p[..7]; }
    if |p| >= 8 { assert s[..8] == p[..8]; }
  }

  /** Removing a scheme from `p + x` removes it from `p` when `x` holds no slash. */
  lemma {:induction false} StripSchemeAppend(p: string, x: string)
    requires NoSlash(x)
    ensures StripScheme(p + x) == StripScheme(p) + x
  {
    SchemeAtStartOfAppend(p, x);
    if StartsHttp(p) {
      assert (p + x)[7..] == p[7..] + x;
    } else if StartsHttps(p) {
      assert (p + x)[8..] == p[8..] + x;
    } else if p == [] {
      assert p + x == x;
      StripSchemeNoSlash(x);
    } else {
      StripSchemeAppend(p[1..], x);
      assert (p + x)[1..] == p[1..] + x;
      assert (p + x)[0] == p[0];
    }
  }

  /** A string with no slash holds no scheme to remove. */
  lemma {:induction false} StripSchemeNoSlash(x: string)
    requires NoSlash(x)
    ensures StripScheme(x) == x
  {
    if |x| >= 7 { assert x[..7][6] == x[6]; }
    if |x| >= 8 { assert x[..8][7] == x[7]; }
    assert !StartsHttp(x) && !StartsHttps(x);
    if x != [] {
      StripSchemeNoSlash(x[1..]);
    }
  }

  /** The fallback base names a port itself, so an upload aimed at it would not fall back again. */
  lemma FallbackBaseHasPort(base: string)
    ensures HasPort(StripScheme(FallbackBase(base)))
  {
    var trimmed := if base != [] && base[|base| - 1] == '/' then base[..|base| - 1] else base;
    assert FallbackBase(base) == trimmed + FallbackPort;
    FallbackPortNoSlash();
    StripSchemeAppend(trimmed, FallbackPort);
    PortSuffixHasPort(StripScheme(trimmed));
  }

  lemma FallbackPortNoSlash()
    ensures NoSlash(FallbackPort)
  {
    assert FallbackPort == [':', '3', '0', '0', '0'];
  }

  /** Any string followed by the fallback port names a port. */
  lemma PortSuffixHasPort(t: string)
    ensures HasPort(t + FallbackPort)
  {
    var s := t + FallbackPort;
    var k := |t|;
    assert s[k..] == FallbackPort;
    assert s[k] == ':';
    assert s[k + 1..] == ['3', '0', '0', '0'];
    HasPortIff(s);
  }

  /** `assetImageUrl(name)`: the favicon for a missing or empty name, the named image otherwise. */
  function AssetImageUrl(name: Option<string>): (u: string)
    ensures StartsWith(u, AssetBase + "/")
    ensures (name.None? || name.value == "") <==> u == AssetBase + "/favicon.ico"
    ensures name.Some? && name.value != "" ==>
      StartsWith(u, AssetBase + "/image/") && u[|AssetBase + "/image/"|..] == name.value
  {
    if name.None? || name.value == "" then AssetBase + "/favicon.ico"
    else
      var u := AssetBase + "/image/" + name.value;
      assert u[|AssetBase| + 1] == 'i';
      u
  }

  /** Distinct non-empty names give distinct image URLs, and the name is the URL's last part. */
  lemma ImageUrlRecoversName(a: string, b: string)
    requires a != "" && b != ""
    ensures AssetImageUrl(Some(a))[|AssetBase + "/image/"|..] == a
    ensures AssetImageUrl(Some(a)) == AssetImageUrl(Some(b)) ==> a == b
  {
    var n := |AssetBase + "/image/"|;
    assert AssetImageUrl(Some(a))[n..] == a;
    assert AssetImageUrl(Some(b))[n..] == b;
  }

  const DefaultAvatar := "default.jpg"

  /** The default avatar's name has no padding to trim. */
  lemma DefaultAvatarUnpadded()
    ensures Trim(DefaultAvatar) == DefaultAvatar
  {
    assert TrimStart(DefaultAvatar) == DefaultAvatar by { assert !IsWhitespace(DefaultAvatar[0]); }
    assert TrimEnd(DefaultAvatar) == DefaultAvatar by { assert !IsWhitespace(DefaultAvatar[10]); }
  }

  /**
   * The avatar file name `(name && String(name).trim()) || 'default.jpg'`: the trimmed
   * name, or `default.jpg` when the name is missing or blank; never blank, never padded.
   */
  function AvatarFileName(name: Option<string>): (f: string)
    ensures f != "" && Trim(f) == f
    ensures name.None? || Blank(name.value) ==> f == DefaultAvatar
    ensures name.Some? && !Blank(name.value) ==> f == Trim(name.value)
  {
    var trimmed := if name.Some? && name.value != "" then Trim(name.value) else "";
    DefaultAvatarUnpadded();
    TrimIdempotent(if name.Some? then name.value else "");
    TrimEmptyIffBlank(if name.Some? then name.value else "");
    if trimmed != "" then trimmed else DefaultAvatar
  }

  /** `assetAvatarUrl(name)`: the avatar directory of the asset host, then the avatar file name. */
  function AssetAvatarUrl(name: Option<string>): (u: string)
    ensures StartsWith(u, AssetBase + "/avatar/") && u[|AssetBase + "/avatar/"|..] == AvatarFileName(name)
  {
    AssetBase + "/avatar/" + AvatarFileName(name)
  }

  /** An unpadded non-empty name is its own avatar file name. */
  lemma AvatarOfUnpadded(t: string)
    requires t != [] && !IsWhitespace(t[0]) && !IsWhitespace(t[|t| - 1])
    ensures AvatarFileName(Some(t)) == t
  {
    TrimFixesUnpadded(t);
    assert !Blank(t);
    assert AvatarFileName(Some(t)) == Trim(t);
  }

  /** Padding a name with whitespace does not change its avatar file name. */
  lemma AvatarFileNameIgnoresPadding(name: string)
    ensures AvatarFileName(Some(Trim(name))) == AvatarFileName(Some(name))
  {
    if Blank(name) {
      AvatarOfBlank(name);
    } else {
      TrimEmptyIffBlank(name);
      var t := Trim(name);
      assert AvatarFileName(Some(name)) == t;
      AvatarOfUnpadded(t);
    }
  }

  /** A blank name and its trim both get the default avatar. */
  lemma AvatarOfBlank(name: string)
    requires Blank(name)
    ensures AvatarFileName(Some(name)) == DefaultAvatar
    ensures AvatarFileName(Some(Trim(name))) == DefaultAvatar
  {
    TrimEmptyIffBlank(name);
  }

  /** Padding a name with whitespace does not change its avatar URL. */
  lemma AvatarUrlIgnoresPadding(name: string)
    ensures AssetAvatarUrl(Some(Trim(name))) == AssetAvatarUrl(Some(name))
  {
    AvatarFileNameIgnoresPadding(name);
  }
}
