# Session, routing and HTTP client core of the agricultural-finance web client

This project models the client-side core of a Vue single-page application. The application connects farmers, experts, bank users and administrators with a backend service. The model covers five source files:

- **Router** (`src/router/index.ts`):
  - the role read from the stored session (`getUserRole`);
  - each role's landing page (`roleHomePath`);
  - the route table's `meta` data, the redirect of `/` and the `beforeEach` authorisation guard.
- **Asset** (`src/utils/asset.ts`):
  - the upload to the asset host, which retries once on port 3000 after a network failure when the base URL names no port;
  - error wrapping (`wrapAxiosError`);
  - the image and avatar URL builders.
- **Request** (`src/utils/request.ts`): the shared HTTP client.
  - It attaches the bearer token.
  - It accepts only envelopes whose `code` is 200.
  - It turns every failure into one message.
  - On HTTP 401 it drops the token and reloads `/login`.
- **Api** (`src/utils/api.ts`):
  - the global client defaults and interceptors, whose 401 teardown does not reload `/login` when the browser's path is already `/login`;
  - the bank-user and finance operations, which go through the shared client of `request.ts`.
- **UserHelper** (`src/utils/userHelper.ts`): the current user name, taken from the `user` blob and then from the `userInfo` blob.

Shared modules:

- `Wrappers`: `Option` and `Result`.
- `Strings`: JavaScript `trim`, `toLowerCase` and decimal rendering.
- `LocalStorage`: stored items. A mutable `Browser` class holds storage, a flag for storage that throws, the current path and a count of page loads.
- `Http`: thrown values, envelopes, a request `Config` class whose headers are edited in place, and bearer credentials as in section 2.1 of RFC 6750.

How the code's form is kept:

- Pure logic is functions and lemmas.
- Storage removal and `location.href` assignment are methods of the `Browser` class. The interceptors that change the configuration or the browser are module-level methods that take a `Config` or a `Browser` and modify it. Each is proved against a function of the old state.
- The upload is a straight-line method over two transport oracles. Those oracles stand for what each POST would come back with. The method is proved equal to the function `UploadSpec`.

The operations in `api.ts` are built on `request` from `request.ts`, not on the global `axios`. Their URLs therefore begin with `http://101.37.83.215:8082`, and the `localhost` default of `api.ts` applies only to other callers of the global client. `CallUrl` states this.

## Model

| member | source | states |
|---|---|---|
| Strings.TrimStart | src/utils/asset.ts:72 | the result is a suffix of the input that does not start with whitespace; everything removed is whitespace |
| Strings.TrimEnd | src/utils/asset.ts:72 | the result is a prefix of the input that does not end with whitespace; everything removed is whitespace |
| Strings.Trim | src/utils/asset.ts:72 | `trim()` is no longer than its input and neither starts nor ends with whitespace |
| Strings.TrimIsInfix | src/utils/userHelper.ts:10-11 | `trim()` is an infix of the input, and both cut-off parts are entirely whitespace |
| Strings.TrimIdempotent | src/utils/userHelper.ts:10-11 | trimming twice equals trimming once |
| Strings.TrimFixesUnpadded | src/utils/asset.ts:72 | a string with no whitespace at either end is its own trim |
| Strings.TrimEmptyIffBlank | src/utils/userHelper.ts:10 | `s.trim()` is empty exactly when every character of `s` is whitespace |
| Strings.ToLower | src/router/index.ts:10 | `toLowerCase` keeps the length and lower-cases each character |
| Strings.ToLowerNormalises | src/router/index.ts:10 | the result is lower-case; a lower-case string is unchanged; lower-casing is idempotent |
| Strings.Decimal | src/utils/request.ts:49 | a status is rendered as a non-empty string of digits without a leading zero |
| Strings.DecimalRoundTrip | src/utils/request.ts:49 | reading the rendered digits back gives the number |
| LocalStorage.GetItem | src/router/index.ts:7 | `getItem` returns the stored text exactly when the key is present, and `null` otherwise |
| LocalStorage.ReadBlob | src/router/index.ts:7-9 | a missing or empty item is absent; text that fails to parse is malformed; otherwise its parsed record |
| LocalStorage.Browser.RemoveItem | src/utils/request.ts:54 | a removal that throws changes nothing; otherwise only that key leaves the store |
| LocalStorage.Browser.Assign | src/utils/request.ts:55 | assigning `location.href` sets the path and starts exactly one more page load |
| Http.StatusUnauthorized | src/utils/api.ts:32-33 | `error?.response?.status === 401`: an object with a response whose status is 401 |
| Http.NewError | src/utils/asset.ts:28 | `new Error(m)` is an `Error` object with message `m` and no response |
| Http.BearerCredentials | src/utils/request.ts:20 | the header value is `Bearer ` followed by the token |
| Http.BearerToken | src/utils/request.ts:20 | a token read back from a header value rebuilds that value |
| Http.BearerRoundTrip | src/utils/request.ts:20 | the token is recovered from the header value built for it |
| Router.GetUserRole | src/router/index.ts:5-12 | a role is returned exactly when the stored `user` blob parses and holds a non-empty string role; the role returned is that string lower-cased, never empty |
| Router.RoleHomePath | src/router/index.ts:14-21 | the landing path is one of the four landing pages; it is `/home` exactly when the role is not admin, expert or bankuser |
| Router.RoleHomePathInjective | src/router/index.ts:14-21 | the three special roles land on three distinct pages |
| Router.IsPublic | src/router/index.ts:152 | `to.meta.public === true`: only an explicit `true` makes a page public |
| Router.RequiredRole | src/router/index.ts:160 | the required role as the guard reads it: the declared `role`, or the empty string when there is none |
| Router.RouteAt | src/router/index.ts:25-148 | the route table: entry `i` is the `i`-th route declared, with its path, name and meta |
| Router.MetaFrom | src/router/index.ts:25-148 | the meta of the first page declared at a path from a given entry on, or no meta |
| Router.MetaOf | src/router/index.ts:152 | `to.meta` of a navigation: the lookup from the start of the table |
| Router.MetaFromUndeclared | src/router/index.ts:25-148 | a path no page is declared at gets an empty meta |
| Router.MetaFromFirst | src/router/index.ts:25-148 | the first page declared at a path decides its meta; later duplicates are shadowed |
| Router.SkipEntry | src/router/index.ts:25-148 | an entry whose path has a different length is passed over by the lookup |
| Router.MetaOfLogin | src/router/index.ts:34-39 | `/login` is declared public with no role |
| Router.MetaOfHome | src/router/index.ts:46-51 | `/home` requires the role `user` |
| Router.MetaOfAdminHome | src/router/index.ts:52-57 | `/admin-home` requires the role `admin` |
| Router.MetaOfExpertHome | src/router/index.ts:58-63 | `/expert-home` requires the role `expert` |
| Router.MetaOfFinancingApplication | src/router/index.ts:115-123 | `/financing-application` requires the role `bankuser` and carries its title |
| Router.Guard | src/router/index.ts:151-166 | a page is let through exactly when it is public, or when there is a token and the page needs no role or the user's role; any redirect goes to the login page with `needLogin=true` or to the user's own landing page |
| Router.Navigate | src/router/index.ts:151-166 | the guard applied to the meta of the target path |
| Router.BeforeEach | src/router/index.ts:151-154 | the guard as it runs: the token and the role are read from storage at each navigation |
| Router.RootRedirect | src/router/index.ts:28-32 | `/` goes to the role's landing page exactly when both a token and a role are stored, and otherwise to `/login` |
| Router.PublicAlwaysAllowed | src/router/index.ts:152-155 | a public page is let through whatever the token and role |
| Router.ExplicitlyNotPublicIsProtected | src/router/index.ts:152 | `public: false` is guarded exactly like a missing `public` |
| Router.ProtectedWithoutTokenGoesToLogin | src/router/index.ts:156-159 | without a token, every protected page redirects to the login page with `needLogin=true` |
| Router.RoleMismatchGoesToOwnLanding | src/router/index.ts:160-164 | with a token, a page reserved for another role redirects to the user's own landing page |
| Router.LandingRequiresRole | src/router/index.ts:14-21 | each known role's landing page is protected and requires exactly that role |
| Router.LandingAdmitsRole | src/router/index.ts:151-166 | a user with a token and a known role is let into their own landing page |
| Router.RedirectSettles | src/router/index.ts:151-166 | for a known role, a guard redirect leads to a page the guard then lets through |
| Router.UnknownRoleRedirectLoops | src/router/index.ts:151-166 | a token holder whose role is missing or unknown lands on `/home`, and the guard redirects `/home` to itself |
| Router.RootRedirectAdmitted | src/router/index.ts:28-32 | the redirect of `/` ends on a page the guard lets through when the role is known or the target is `/login`; it loops on `/home` when the role is unknown |
| Asset.Attempt | src/utils/asset.ts:20-28 | a body succeeds only with truthy `success`, `fileName` and `url`, and yields exactly those names; any other body rejects with its message or `上传失败`; a thrown value is passed on |
| Asset.TypeField | src/utils/asset.ts:16 | the form's `type` field: `image` or `avatar` |
| Asset.IsNetworkError | src/utils/asset.ts:31 | the failure is a network error exactly when it is an object whose message is `Network Error` |
| Asset.StripScheme | src/utils/asset.ts:32 | `replace(/https?:\/\//, '')` never lengthens the string; what it removes is stated by StripSchemeNone and StripSchemeFirst |
| Asset.SchemeAtShift | src/utils/asset.ts:32 | a match at position `k >= 1` is a match at `k - 1` of the string without its first character |
| Asset.SchemesExclusive | src/utils/asset.ts:32 | no string starts with both `http://` and `https://` |
| Asset.StripSchemeAtStart | src/utils/asset.ts:32 | a match at the start is the one removed |
| Asset.StripSchemeSkip | src/utils/asset.ts:32 | without a match at the start, the first character is kept |
| Asset.StripSchemeNone | src/utils/asset.ts:32 | a string holding no `http://` or `https://` is left unchanged |
| Asset.StripSchemeFirst | src/utils/asset.ts:32 | exactly the leftmost match is removed (`https://` where it fits, else `http://`), and everything before and after it is kept |
| Asset.HasPort | src/utils/asset.ts:32 | the `/:\d+$/` test: a colon followed by the trailing digits, at least one; characterised by HasPortIff |
| Asset.FallbackBase | src/utils/asset.ts:34 | the base without one trailing slash, followed by `:3000`; stated by FallbackBaseShape |
| Asset.FallbackBaseShape | src/utils/asset.ts:34 | the fallback base ends with `:3000`, and before it is the base with exactly one trailing slash dropped when it had one |
| Asset.Retries | src/utils/asset.ts:31-33 | a failed first attempt is retried exactly on a network error against a base with no port |
| Asset.ErrorStatus | src/utils/asset.ts:58 | `anyErr?.response?.status` |
| Asset.ErrorDataMessage | src/utils/asset.ts:59 | `response.data.message`, else `response.data.msg` |
| Asset.TrailingDigits | src/utils/asset.ts:32 | counts exactly the maximal run of digits at the end of the string |
| Asset.HasPortIff | src/utils/asset.ts:32 | `/:\d+$/` holds exactly when some colon is followed by one or more digits and nothing else |
| Asset.WrapAxiosError | src/utils/asset.ts:53-64 | the result is always an `Error`; an `Error` comes back unchanged; another object with a truthy status or a data message becomes `[<status>|网络] <data message|message|上传失败>`; any other value becomes `网络错误或服务器无响应` |
| Asset.Settle | src/utils/asset.ts:46-49 | a success is kept; a failure rejects with the wrapped error |
| Asset.UploadSpec | src/utils/asset.ts:14-51 | one or two POSTs: the first to the base URL, the second to the fallback base; the result is the last attempt settled: its file name and URL on success, its wrapped error on failure; any rejection is an `Error` |
| Asset.UploadAsset | src/utils/asset.ts:14-51 | the upload makes exactly the POSTs of the specification and settles as it does |
| Asset.RetryIff | src/utils/asset.ts:31-33 | a second POST happens exactly when the first attempt throws a network error and the base names no port |
| Asset.PortedBaseNeverRetries | src/utils/asset.ts:32-33 | a base URL with a port is never retried, and the first attempt decides the result |
| Asset.RejectedEnvelopeNotRetried | src/utils/asset.ts:24-31 | a rejected body is not retried unless its message is `Network Error`, and it rejects with its own message |
| Asset.FallbackSuccess | src/utils/asset.ts:33-43 | after a network failure, a successful retry resolves to the retry's file name and URL |
| Asset.AssetBaseHasNoPort | src/utils/asset.ts:3-4 | the shipped asset host has no port, so its fallback is `http://101.37.83.215:3000` |
| Asset.AssetHost | src/utils/asset.ts:3-4 | removing the scheme from the shipped base leaves the bare host |
| Asset.HostHasNoPort | src/utils/asset.ts:32 | the bare host ends in three digits preceded by a dot, so it names no port |
| Asset.SchemeAtStartOfAppend | src/utils/asset.ts:32 | appending text without a slash neither creates nor removes a leading scheme |
| Asset.StripSchemeAppend | src/utils/asset.ts:32 | removing the scheme commutes with appending text that holds no slash |
| Asset.StripSchemeNoSlash | src/utils/asset.ts:32 | text without a slash has no scheme to remove |
| Asset.FallbackBaseHasPort | src/utils/asset.ts:34 | every fallback base names a port, so an upload to it would not fall back again |
| Asset.FallbackPortNoSlash | src/utils/asset.ts:34 | the appended `:3000` holds no slash |
| Asset.PortSuffixHasPort | src/utils/asset.ts:32-34 | any text followed by `:3000` names a port |
| Asset.AssetImageUrl | src/utils/asset.ts:66-69 | the URL is under the asset host; it is the favicon exactly when the name is missing or empty; otherwise it is the `/image/` directory followed by the name |
| Asset.ImageUrlRecoversName | src/utils/asset.ts:66-69 | the name is the URL's tail, so distinct names give distinct URLs |
| Asset.DefaultAvatarUnpadded | src/utils/asset.ts:72 | `default.jpg` has no padding to trim |
| Asset.AvatarFileName | src/utils/asset.ts:72 | the file name is never empty or padded; it is `default.jpg` for a missing or blank name, and the trimmed name otherwise |
| Asset.AssetAvatarUrl | src/utils/asset.ts:71-74 | the URL is the avatar directory of the asset host followed by the avatar file name |
| Asset.AvatarOfUnpadded | src/utils/asset.ts:72 | a non-empty unpadded name is its own avatar file name |
| Asset.AvatarOfBlank | src/utils/asset.ts:72 | a blank name and its trim both get `default.jpg` |
| Asset.AvatarFileNameIgnoresPadding | src/utils/asset.ts:72 | padding a name does not change its avatar file name |
| Asset.AvatarUrlIgnoresPadding | src/utils/asset.ts:71-74 | padding a name does not change its avatar URL |
| Request.AttachToken | src/utils/request.ts:15-23 | with a stored token, `Authorization` becomes `Bearer <token>` and reads back as that token; the interceptor throws, leaving the config unchanged, when storage refuses access or the config has no headers |
| Request.OnResponse | src/utils/request.ts:34-41 | resolves to the envelope itself exactly when its code is 200; otherwise rejects with `msg` or `后端返回错误`; a missing body throws |
| Request.StatusText | src/utils/request.ts:49 | a status is rendered as its canonical decimal (`Decimal`: no leading zero), whose value is the status; a missing status renders as `undefined` |
| Request.ResponseMessage | src/utils/request.ts:48-49 | the message is `后端错误（<status>）: ` followed by the body's `msg`, else the status text, else `接口异常` |
| Request.Classify | src/utils/request.ts:42-68 | `undefined` gives the not-sent message; a response gives the 401 message or the status message; a request without a response gives the no-response message; any other object gives its own message or `请求失败`; a primitive gives `请求失败`; a throw happens exactly for `null` |
| Request.ResponseBeforeRequest | src/utils/request.ts:46-57 | a received response decides the message whether or not a request is recorded |
| Request.RequestBeforeOther | src/utils/request.ts:57-60 | without a response, a recorded request decides the message whatever the error's own message |
| Request.UnauthorizedIgnoresBody | src/utils/request.ts:52-54 | a 401 gives the session-expired message whatever its body or status text say |
| Request.ResponseMessageShowsStatus | src/utils/request.ts:49 | distinct statuses are rendered differently |
| Request.ForcedTeardown | src/utils/request.ts:52-56 | the 401 teardown removes only `auth_token`, goes to `/login` and starts one more page load; whether storage works is unchanged |
| Request.AfterResponseError | src/utils/request.ts:52-56 | a 401 with working storage yields exactly the forced teardown; anything else leaves the browser unchanged |
| Request.OnResponseError | src/utils/request.ts:42-68 | rejects with the classified message, or with the storage exception on a 401 when storage refuses; the browser ends as the teardown specification says |
| Request.ForcedTeardownReloadsEachTime | src/utils/request.ts:52-56 | a second 401 leaves storage and path as they are but loads `/login` again |
| Api.BaseUrl | src/utils/api.ts:4 | the base is the environment value when it is non-empty, and `http://localhost:8082` otherwise |
| Api.AttachToken | src/utils/api.ts:9-18 | with a stored token and working storage, the headers get `Authorization: Bearer <token>`, and a headers object is created if missing; otherwise the config is unchanged |
| Api.EnvelopeUnauthorized | src/utils/api.ts:24 | the body is an object whose `code` is 401 |
| Api.GuardedTeardown | src/utils/api.ts:25-27 | drops `auth_token` when storage works and leaves the store untouched when storage refuses; keeps every other key, ends on `/login`, and starts a page load only when not already there |
| Api.GuardedTeardownIdempotent | src/utils/api.ts:25-27 | tearing down twice leaves the browser exactly as tearing down once |
| Api.Teardown | src/utils/api.ts:25-27 | the browser ends as the guarded teardown specifies |
| Api.OnResponse | src/utils/api.ts:22-30 | the response is passed on unchanged; only an envelope with code 401 tears the session down |
| Api.OnError | src/utils/api.ts:31-38 | the same error is rejected again; only an HTTP 401 tears the session down |
| Api.OutgoingOf | src/utils/api.ts:44-67 | every path is under `/api/`; only `submitFinance` posts and sends a body; the query parameters are exactly those of each operation |
| Api.OperationPathsDistinct | src/utils/api.ts:44-67 | different operations request different paths |
| Api.CallUrl | src/utils/api.ts:44-67 | every operation's URL begins with the shared client's base followed by `/api/` |
| UserHelper.NameFrom | src/utils/userHelper.ts:8-16 | a blob gives a name exactly when it parses and holds a string `userName` that is not blank; the name is trimmed and non-empty |
| UserHelper.GetCurrentUserName | src/utils/userHelper.ts:4-35 | the name from `user` when there is one, else the name from `userInfo`; a returned name is trimmed and non-empty |
| UserHelper.NoNameIffBothEmpty | src/utils/userHelper.ts:33-35 | `null` is returned exactly when neither blob gives a name |
| UserHelper.UserInfoIgnoredWhenUserNamed | src/utils/userHelper.ts:5-17 | when `user` gives a name, `userInfo` has no influence |
| UserHelper.MalformedIsAbsent | src/utils/userHelper.ts:7-16 | an unparsable blob under either key behaves exactly as if the key were missing |

## Left out

- `JSON.parse` is not modelled. Each stored item carries its text and how that text parses. A value that parses to `null` is treated like unparsable text, because reading a property of it throws.
- Strings.ToLower and Router.GetUserRole: only ASCII `A`–`Z` are lower-cased. Full Unicode case mapping is not modelled.
- A non-string `role` or `userName` is modelled only as "not a string". Its `toLowerCase` or `trim` throws or yields nothing usable; both give `null`.
- Route matching: paths are compared literally. Dynamic segments (`/products/:id`, `/product/:id`) and vue-router's ranking of routes are not modelled. A concrete `/products/5` gets no meta, which the guard treats the same as the declared `public: false`. The hash-history fragment and `import.meta.env.BASE_URL` are not modelled.
- The route components, their lazy imports and the page titles' use are not modelled. Of the two `/cart` routes, the first declared is the one looked up. Both have no meta.
- Axios itself, Promises and the network are not modelled. Each POST of the upload is an oracle argument, and the interceptors are called directly with the configuration, response or error.
- `ElMessage` toasts and `console` logging are not modelled. They do not change the result.
- The request-phase error handler of `request.ts` is not modelled. It only shows a toast and rejects with the same error.
- The upload's `FormData` payload, the file contents and the `Content-Type` header are not modelled. Only the `type` field and the target of each POST are kept.
- Only storage inside the interceptors can fail (the `storageOk` flag). In the router and in `getCurrentUserName`, a throwing `localStorage` is not modelled.
- An envelope `code` that is not a number is read as absent. `withCredentials`, the 5000 ms timeout and the JSON content-type default are not modelled.
- Request.AttachToken: a configuration without a headers object is modelled as throwing. Axios normally supplies one.
- `location.href` assignments are counted page loads. The page that loads is not modelled.
- LocalStorage.Browser.Assign: the model changes `path` at once. A browser keeps `location.pathname` at the old page's path until the new page has loaded.
- Api.GuardedTeardownIdempotent: this holds only for a second 401 that arrives after `/login` has loaded. Two 401s handled on the same page both see the old path, and both assign `location.href`.
- `Window.path` is the server pathname. With hash history, the login route `/#/login` has the pathname `/`. So the guarded teardown skips the reload only when the server path is `/login`, not on the router's login page.
- Upload body fields that are not strings are read as empty. The source also accepts a truthy non-string `fileName` or `url`, and it uses a truthy non-string `message` as the error text.
