/**
 * The route guard and permission checks of hoc/withAuth.tsx: `usePermissions`' role predicates,
 * the role gate and login redirect of the protected route's effect, and its render gate. The
 * authentication context is an input: the signed-in user (if any), its loading flag and the
 * answer of `isAuthenticated()`. `encodeURIComponent` is a parameter `encode`.
 */
module Auth {
  import opened Wrappers
  import opened Sequences

  /** A role as the guard reads it (`r.name`). */
  datatype Role = Role(name: string)

  datatype User = User(id: int, email: string, name: string, roles: Option<seq<Role>>)

  /** The options of `withAuth`. */
  datatype Options = Options(
    redirectTo: Option<string>,
    requiredRole: Option<string>,
    requiredRoles: Option<seq<string>>)

  const LoginPath: string := "/login"
  const UnauthorizedPath: string := "/unauthorized"

  function RoleName(r: Role): string {
    r.name
  }

  function NameIs(role: string): Role -> bool {
    (r: Role) => r.name == role
  }

  function InList(names: seq<string>): string -> bool {
    (n: string) => n in names
  }

  /** `user?.roles?.map(r => r.name) || []`. */
  function RoleNames(user: Option<User>): (names: seq<string>)
    ensures user.None? || user.value.roles.None? ==> names == []
    ensures user.Some? && user.value.roles.Some? ==>
      |names| == |user.value.roles.value| &&
      forall i :: 0 <= i < |names| ==> names[i] == user.value.roles.value[i].name
  {
    if user.Some? && user.value.roles.Some? then Map(user.value.roles.value, RoleName) else []
  }

  /** `hasRole`. */
  function HasRole(user: Option<User>, role: string): bool {
    user.Some? && user.value.roles.Some? && AnyOf(user.value.roles.value, NameIs(role))
  }

  /** `hasAnyRole`. */
  function HasAnyRole(user: Option<User>, roles: seq<string>): bool {
    AnyOf(roles, InList(RoleNames(user)))
  }

  /** `hasAllRoles`. */
  function HasAllRoles(user: Option<User>, roles: seq<string>): bool {
    AllOf(roles, InList(RoleNames(user)))
  }

  /** `hasRole(r)` holds exactly when some role of the user is named `r`, so never without a
      user or without roles; `hasAnyRole` and `hasAllRoles` are `hasRole` over a list, with
      `hasAnyRole([])` false and `hasAllRoles([])` true. */
  lemma PermissionsSpec(user: Option<User>, role: string, roles: seq<string>)
    ensures HasRole(user, role) <==> role in RoleNames(user)
    ensures user.None? || user.value.roles.None? ==> !HasRole(user, role)
    ensures HasAnyRole(user, roles) <==> exists i :: 0 <= i < |roles| && HasRole(user, roles[i])
    ensures HasAllRoles(user, roles) <==> forall i :: 0 <= i < |roles| ==> HasRole(user, roles[i])
    ensures !HasAnyRole(user, []) && HasAllRoles(user, [])
    ensures roles != [] && HasAllRoles(user, roles) ==> HasAnyRole(user, roles)
  {
    var names := RoleNames(user);
    forall r ensures HasRole(user, r) <==> r in names {
      if HasRole(user, r) {
        var i :| 0 <= i < |user.value.roles.value| && user.value.roles.value[i].name == r;
        assert names[i] == r;
      }
      if r in names {
        var i :| 0 <= i < |names| && names[i] == r;
        assert NameIs(r)(user.value.roles.value[i]);
      }
    }
    if roles != [] && HasAllRoles(user, roles) {
      assert InList(names)(roles[0]);
    }
  }

  /** The shorthands `usePermissions` returns with the three predicates. */
  datatype Permissions = Permissions(isAdmin: bool, isUser: bool, isModerator: bool)

  function UsePermissions(user: Option<User>): (p: Permissions)
    ensures p.isAdmin <==> "ADMIN" in RoleNames(user)
    ensures p.isUser <==> "USER" in RoleNames(user)
    ensures p.isModerator <==> "MODERATOR" in RoleNames(user)
  {
    PermissionsSpec(user, "ADMIN", []);
    PermissionsSpec(user, "USER", []);
    PermissionsSpec(user, "MODERATOR", []);
    Permissions(HasRole(user, "ADMIN"), HasRole(user, "USER"), HasRole(user, "MODERATOR"))
  }

  // -----------------------------------------------------------------------------------------------
  // The protected route

  predicate Truthy(s: Option<string>) {
    s.Some? && s.value != ""
  }

  /** `requiredRole || requiredRoles`: the role check runs at all (an empty list is truthy). */
  predicate RoleChecked(o: Options) {
    Truthy(o.requiredRole) || o.requiredRoles.Some?
  }

  /** `hasRequiredRole` after the if-chain: the single role, overwritten by the any-of result
      whenever the list is non-empty, and false when neither applies. */
  function HasRequiredRole(user: User, o: Options): bool {
    var names := RoleNames(Some(user));
    var single := Truthy(o.requiredRole) && o.requiredRole.value in names;
    if o.requiredRoles.Some? && |o.requiredRoles.value| > 0 then
      AnyOf(o.requiredRoles.value, InList(names))
    else
      single
  }

  /** The URL the user came from: the path, plus `?` and the query only when there is one. */
  function CurrentUrl(pathname: string, query: string): string {
    if query != "" then pathname + "?" + query else pathname
  }

  /** The login redirect: `redirectTo` (default `/login`) with the encoded current URL. */
  function LoginUrl(o: Options, pathname: string, query: string, encode: string -> string): string {
    o.redirectTo.GetOr(LoginPath) + "?redirect=" + encode(CurrentUrl(pathname, query))
  }

  /** Where the route's effect sends the user, if anywhere. */
  function Redirect(mounted: bool, loading: bool, authenticated: bool, user: Option<User>,
                    o: Options, pathname: string, query: string,
                    encode: string -> string): Option<string> {
    if !mounted then None
    else if !loading && !authenticated then Some(LoginUrl(o, pathname, query, encode))
    else if user.Some? && RoleChecked(o) && !HasRequiredRole(user.value, o) then Some(UnauthorizedPath)
    else None
  }

  /** The wrapped component renders only once mounted, loaded and authenticated. */
  predicate Renders(mounted: bool, loading: bool, authenticated: bool) {
    mounted && !loading && authenticated
  }

  /** Once loading has finished, an unauthenticated visitor is sent to the login page with the
      page they asked for, query included only when non-empty; with no `redirectTo` the login
      page is `/login`. */
  lemma LoginRedirectSpec(user: Option<User>, o: Options, pathname: string, query: string,
                          encode: string -> string)
    ensures Redirect(true, false, false, user, o, pathname, query, encode) ==
      Some(o.redirectTo.GetOr("/login") + "?redirect=" +
           encode(if query == "" then pathname else pathname + "?" + query))
    ensures o.redirectTo.None? ==>
      LoginUrl(o, pathname, query, encode) == "/login?redirect=" + encode(CurrentUrl(pathname, query))
  {
  }

  /** A non-empty `requiredRoles` decides alone: `requiredRole` makes no difference then. */
  lemma RequiredRolesOverride(user: User, o: Options, role: Option<string>)
    requires o.requiredRoles.Some? && |o.requiredRoles.value| > 0
    ensures HasRequiredRole(user, o) == HasRequiredRole(user, o.(requiredRole := role))
    ensures HasRequiredRole(user, o) <==> HasAnyRole(Some(user), o.requiredRoles.value)
  {
  }

  /** `requiredRoles: []` without a `requiredRole` sends every signed-in user to
      `/unauthorized`, whatever their roles. */
  lemma EmptyRequiredRolesDenies(mounted: bool, loading: bool, authenticated: bool, user: User,
                                 pathname: string, query: string, encode: string -> string,
                                 redirectTo: Option<string>)
    requires mounted && (loading || authenticated)
    ensures Redirect(mounted, loading, authenticated, Some(user), Options(redirectTo, None, Some([])),
                     pathname, query, encode) == Some("/unauthorized")
  {
  }

  /** With a role required, a signed-in user passes exactly when they hold it (a single role)
      or any of the listed roles. */
  lemma RoleGateSpec(mounted: bool, loading: bool, authenticated: bool, user: User, o: Options,
                     pathname: string, query: string, encode: string -> string)
    requires mounted && (loading || authenticated) && RoleChecked(o)
    ensures var r := Redirect(mounted, loading, authenticated, Some(user), o, pathname, query, encode);
      && (r == None || r == Some("/unauthorized"))
      && (o.requiredRoles.Some? && |o.requiredRoles.value| > 0 ==>
            (r == None <==> HasAnyRole(Some(user), o.requiredRoles.value)))
      && ((o.requiredRoles.None? || o.requiredRoles.value == []) ==>
            (r == None <==> Truthy(o.requiredRole) && HasRole(Some(user), o.requiredRole.value)))
  {
    PermissionsSpec(Some(user), o.requiredRole.GetOr(""), []);
  }

  /** A page that renders was not sent to the login page (at most to `/unauthorized`, whose
      redirect the render does not wait for); nothing renders or redirects before mounting. */
  lemma RenderGateSpec(mounted: bool, loading: bool, authenticated: bool, user: Option<User>,
                       o: Options, pathname: string, query: string, encode: string -> string)
    ensures Renders(mounted, loading, authenticated) ==>
      var r := Redirect(mounted, loading, authenticated, user, o, pathname, query, encode);
      r == None || r == Some(UnauthorizedPath)
    ensures !mounted ==>
      (!Renders(mounted, loading, authenticated) &&
       Redirect(mounted, loading, authenticated, user, o, pathname, query, encode) == None)
  {
  }
}
