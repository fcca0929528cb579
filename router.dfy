/**
 * The navigation authorisation guard of the client router: the role read from the
 * stored session, the landing path of each role, the route table's meta data, the
 * redirect of the root path and the `beforeEach` decision.
 */
module Router {
  import opened Wrappers
  import opened Strings
  import opened LocalStorage

  /** The roles that have a landing page of their own or a route restricted to them. */
  const KnownRoles: set<string> := {"admin", "expert", "bankuser", "user"}

  /**
   * `getUserRole()`: the lower-cased `role` of the stored session, or `null` when the
   * session is missing, unparsable, has no string role or an empty one.
   */
  function GetUserRole(st: Store): (role: Option<string>)
    ensures role.Some? <==>
      ReadBlob(st, UserKey).Parsed? && ReadBlob(st, UserKey).rec.role.Str? && ReadBlob(st, UserKey).rec.role.s != ""
    ensures role.Some? ==> role.value == ToLower(ReadBlob(st, UserKey).rec.role.s)
    ensures role.Some? ==> role.value != "" && IsLower(role.value)
  {
    match ReadBlob(st, UserKey)
    case Parsed(rec) =>
      if rec.role.NonString? then None  // `.toLowerCase` of a non-string throws or yields ''
      else
        var lowered := ToLower(if rec.role.Str? then rec.role.s else "");
        ToLowerNormalises(if rec.role.Str? then rec.role.s else "");
        if lowered == "" then None else Some(lowered)
    case _ => None
  }

  /** `roleHomePath(role)`: the landing path of each role; every other role, and no role, lands on `/home`. */
  function RoleHomePath(role: Option<string>): (p: string)
    ensures p in {"/admin-home", "/expert-home", "/financing-application", "/home"}
    ensures p == "/home" <==> role !in {Some("admin"), Some("expert"), Some("bankuser")}
  {
    match role
    case Some("admin") => "/admin-home"
    case Some("expert") => "/expert-home"
    case Some("bankuser") => "/financing-application"
    case _ => "/home"
  }

  /** Distinct special roles land on distinct pages, none of them `/home`. */
  lemma RoleHomePathInjective(r1: string, r2: string)
    requires r1 in {"admin", "expert", "bankuser"} && r2 in {"admin", "expert", "bankuser"}
    ensures RoleHomePath(Some(r1)) == RoleHomePath(Some(r2)) <==> r1 == r2
  {
  }

  /** A route's `meta`: `public` (true, false or missing), the required `role` and a page `title`. */
  datatype Meta = Meta(isPublic: Option<bool>, role: Option<string>, title: Option<string>)

  /** The meta of a route that declares none: vue-router supplies an empty object. */
  const NoMeta := Meta(None, None, None)

  /** An entry of the route table: the root redirect, or a page with its name and meta (components left out). */
  datatype Route = RedirectRoute(path: string) | View(path: string, name: string, meta: Meta)

  /** The number of entries in the route table. */
  const RouteCount := 21

  /** The route table: entry `i` is the `i`-th route declared. */
  function RouteAt(i: nat): Route
    requires i < RouteCount
  {
    match i
    case 0 => RedirectRoute("/")
    case 1 => View("/login", "login", Meta(Some(true), None, None))
    case 2 => View("/register", "register", Meta(Some(true), None, None))
    case 3 => View("/home", "home", Meta(None, Some("user"), None))
    case 4 => View("/admin-home", "admin-home", Meta(None, Some("admin"), None))
    case 5 => View("/expert-home", "expert-home", Meta(None, Some("expert"), None))
    case 6 => View("/bank-user-home", "bank-user-home", Meta(None, Some("bankuser"), None))
    case 7 => View("/products", "products", Meta(Some(false), None, None))
    case 8 => View("/products/:id", "product-detail", Meta(Some(false), None, None))
    case 9 => View("/requests", "requests", NoMeta)
    case 10 => View("/knowledge", "knowledge", Meta(Some(false), None, None))
    case 11 => View("/experts", "experts", Meta(Some(false), None, None))
    case 12 => View("/cart", "cart", NoMeta)
    case 13 => View("/delivery-address", "delivery-address", NoMeta)
    case 14 => View("/bank-user-match", "BankUserMatch", Meta(None, None, Some("银行用户匹配")))
    case 15 => View("/financing-application", "FinancingApplication", Meta(None, Some("bankuser"), Some("融资申请管理")))
    case 16 => View("/orders", "orders", NoMeta)
    case 17 => View("/finance", "finance", NoMeta)
    case 18 => View("/finance-management", "financeManagement", NoMeta)
    case 19 => View("/cart", "Cart", NoMeta)
    case _ => View("/product/:id", "ProductDetail", NoMeta)
  }

  /** The meta of the first page declared at `path` from entry `i` on, or NoMeta when there is none. */
  function MetaFrom(i: nat, path: string): Meta
    requires i <= RouteCount
    decreases RouteCount - i
  {
    if i == RouteCount then NoMeta
    else if RouteAt(i).View? && RouteAt(i).path == path then RouteAt(i).meta
    else MetaFrom(i + 1, path)
  }

  /** `to.meta` of a navigation to `path`. */
  function MetaOf(path: string): Meta {
    MetaFrom(0, path)
  }

  /** The first page declared at `path` decides MetaFrom: nothing before it matches. */
  lemma {:induction false} MetaFromFirst(i: nat, path: string, k: nat)
    requires i <= k < RouteCount && RouteAt(k).View? && RouteAt(k).path == path
    requires forall j :: i <= j < k ==> !(RouteAt(j).View? && RouteAt(j).path == path)
    ensures MetaFrom(i, path) == RouteAt(k).meta
    decreases k - i
  {
    if i < k {
      assert !(RouteAt(i).View? && RouteAt(i).path == path);
      MetaFromFirst(i + 1, path, k);
    }
  }

  /** A path no page is declared at has no meta: the guard sees an empty `meta`. */
  lemma {:induction false} MetaFromUndeclared(i: nat, path: string)
    requires i <= RouteCount
    requires forall j :: i <= j < RouteCount ==> !(RouteAt(j).View? && RouteAt(j).path == path)
    ensures MetaFrom(i, path) == NoMeta
    decreases RouteCount - i
  {
    if i < RouteCount {
      assert !(RouteAt(i).View? && RouteAt(i).path == path);
      MetaFromUndeclared(i + 1, path);
    }
  }

  /** Where a navigation goes instead: a path with its query parameters. */
  datatype Location = Location(path: string, query: seq<(string, string)>)

  /** The guard's verdict: `next()` or `next(location)`. */
  datatype Decision = Allow | Redirect(to: Location)

  /** `{ path: '/login', query: { needLogin: 'true' } }`. */
  const LoginRequired := Location("/login", [("needLogin", "true")])

  /** `to.meta.public === true`: only an explicit `true` makes a route public. */
  predicate IsPublic(meta: Meta) {
    meta.isPublic == Some(true)
  }

  /** `to.meta.role || ''`. */
  function RequiredRole(meta: Meta): string {
    if meta.role.Some? then meta.role.value else ""
  }

  /**
   * The `beforeEach` decision for a target with `meta`, given the stored token and
   * the user's role: public pages pass; without a token, protected pages go to the
   * login page; a page reserved for another role sends the user to their own landing
   * path; everything else passes.
   */
  function Guard(meta: Meta, token: Option<string>, role: Option<string>): (d: Decision)
    ensures d.Redirect? ==> !IsPublic(meta)
    ensures d.Redirect? ==> d.to == LoginRequired || d.to == Location(RoleHomePath(role), [])
    ensures d.Allow? <==>
      IsPublic(meta) || (Truthy(token) && (RequiredRole(meta) == "" || role == Some(RequiredRole(meta))))
  {
    if IsPublic(meta) then Allow
    else if !Truthy(token) then Redirect(LoginRequired)
    else
      var needRole := RequiredRole(meta);
      if needRole != "" && Some(needRole) != role then Redirect(Location(RoleHomePath(role), []))
      else Allow
  }

  /** The guard run on a navigation to `path`. */
  function Navigate(path: string, token: Option<string>, role: Option<string>): Decision {
    Guard(MetaOf(path), token, role)
  }

  /** `router.beforeEach` as it runs: the token and the role are read from storage. */
  function BeforeEach(path: string, st: Store): Decision {
    Navigate(path, GetItem(st, AuthTokenKey), GetUserRole(st))
  }

  /** The redirect of the root path: the user's landing page when both a token and a role are stored, else the login page. */
  function RootRedirect(st: Store): (p: string)
    ensures p != "/login" <==> Truthy(GetItem(st, AuthTokenKey)) && GetUserRole(st).Some?
    ensures p != "/login" ==> p == RoleHomePath(GetUserRole(st))
  {
    var role := GetUserRole(st);
    if Truthy(GetItem(st, AuthTokenKey)) && role.Some? then RoleHomePath(role) else "/login"
  }

  /** A public route is entered whatever the token and the role. */
  lemma PublicAlwaysAllowed(meta: Meta, token: Option<string>, role: Option<string>)
    requires IsPublic(meta)
    ensures Guard(meta, token, role) == Allow
  {
  }

  /** `public: false` and a missing `public` mean the same: protected. */
  lemma ExplicitlyNotPublicIsProtected(meta: Meta, token: Option<string>, role: Option<string>)
    requires meta.isPublic == Some(false)
    ensures Guard(meta, token, role) == Guard(meta.(isPublic := None), token, role)
  {
  }

  /** Without a token, every protected route sends the user to the login page with `needLogin=true`. */
  lemma ProtectedWithoutTokenGoesToLogin(meta: Meta, token: Option<string>, role: Option<string>)
    requires !IsPublic(meta) && !Truthy(token)
    ensures Guard(meta, token, role) == Redirect(LoginRequired)
  {
  }

  /** With a token, a route reserved for another role sends the user to their own landing path. */
  lemma RoleMismatchGoesToOwnLanding(meta: Meta, token: Option<string>, role: Option<string>)
    requires !IsPublic(meta) && Truthy(token)
    requires RequiredRole(meta) != "" && role != Some(RequiredRole(meta))
    ensures Guard(meta, token, role) == Redirect(Location(RoleHomePath(role), []))
  {
  }

  lemma MetaOfLogin()
    ensures MetaOf("/login") == Meta(Some(true), None, None)
  {
  }

  lemma MetaOfHome()
    ensures MetaOf("/home") == Meta(None, Some("user"), None)
  {
  }

  lemma MetaOfAdminHome()
    ensures MetaOf("/admin-home") == Meta(None, Some("admin"), None)
  {
  }

  lemma MetaOfExpertHome()
    ensures MetaOf("/expert-home") == Meta(None, Some("expert"), None)
  {
  }

  /** An entry whose path has another length than `path` is passed over. */
  lemma SkipEntry(i: nat, path: string)
    requires i < RouteCount
    requires RouteAt(i).View? ==> |RouteAt(i).path| != |path|
    ensures MetaFrom(i, path) == MetaFrom(i + 1, path)
  {
  }

  lemma MetaOfFinancingApplication()
    ensures MetaOf("/financing-application") == Meta(None, Some("bankuser"), Some("融资申请管理"))
  {
    var p := "/financing-application";
    SkipEntry(0, p); SkipEntry(1, p); SkipEntry(2, p); SkipEntry(3, p); SkipEntry(4, p);
    SkipEntry(5, p); SkipEntry(6, p); SkipEntry(7, p); SkipEntry(8, p); SkipEntry(9, p);
    SkipEntry(10, p); SkipEntry(11, p); SkipEntry(12, p); SkipEntry(13, p); SkipEntry(14, p);
  }

  /** Every known role's landing page is declared with exactly that role and is not public. */
  lemma LandingRequiresRole(r: string)
    requires r in KnownRoles
    ensures MetaOf(RoleHomePath(Some(r))).role == Some(r)
    ensures !IsPublic(MetaOf(RoleHomePath(Some(r))))
  {
    if r == "admin" {
      MetaOfAdminHome();
    } else if r == "expert" {
      MetaOfExpertHome();
    } else if r == "bankuser" {
      MetaOfFinancingApplication();
    } else {
      MetaOfHome();
    }
  }

  /** A user with a token and a known role is let into their own landing page. */
  lemma LandingAdmitsRole(r: string, token: Option<string>)
    requires r in KnownRoles && Truthy(token)
    ensures Navigate(RoleHomePath(Some(r)), token, Some(r)) == Allow
  {
    LandingRequiresRole(r);
  }

  /**
   * For a user with a token and a known role, a redirect is stable: the page the
   * guard redirects to is then entered without a further redirect.
   */
  lemma RedirectSettles(path: string, token: Option<string>, role: Option<string>)
    requires Truthy(token) && role.Some? && role.value in KnownRoles
    requires Navigate(path, token, role).Redirect?
    ensures Navigate(Navigate(path, token, role).to.path, token, role) == Allow
  {
    LandingAdmitsRole(role.value, token);
  }

  /**
   * For a user with a token whose role is missing or unknown, `/home` — their landing
   * page — requires the role `user`, so the guard redirects it to itself: the
   * navigation never settles.
   */
  lemma UnknownRoleRedirectLoops(token: Option<string>, role: Option<string>)
    requires Truthy(token) && !(role.Some? && role.value in KnownRoles)
    ensures RoleHomePath(role) == "/home"
    ensures Navigate("/home", token, role) == Redirect(Location("/home", []))
  {
    LandingRequiresRole("user");
  }

  /**
   * The root redirect ends on a page the guard admits when the stored role is known,
   * and on the looping `/home` when the stored role is unknown.
   */
  lemma RootRedirectAdmitted(st: Store)
    ensures RootRedirect(st) == "/login" ==> BeforeEach(RootRedirect(st), st) == Allow
    ensures GetUserRole(st).Some? && GetUserRole(st).value in KnownRoles ==> BeforeEach(RootRedirect(st), st) == Allow
    ensures RootRedirect(st) != "/login" && GetUserRole(st).value !in KnownRoles ==>
      BeforeEach(RootRedirect(st), st) == Redirect(Location(RootRedirect(st), []))
  {
    var role := GetUserRole(st);
    var token := GetItem(st, AuthTokenKey);
    MetaOfLogin();
    if RootRedirect(st) != "/login" {
      if role.value in KnownRoles {
        LandingAdmitsRole(role.value, token);
      } else {
        UnknownRoleRedirectLoops(token, role);
      }
    }
  }
}
