/**
 * The global navigation guard (`handleRouteGuard` and its helpers). Before
 * every page transition it decides, from the session store, the
 * registration flag `isRouteRegistered` and the target route, whether to
 * send the user to the login page, run the one dynamic-route registration
 * pass, redirect `/` to the home path, let the navigation proceed, reset the
 * flag and register again, or show the 404 page.
 *
 * The decision that the source hands to `next(...)` is returned as a
 * `Decision` value. The collaborators whose code is not part of this model
 * are parameters:
 *   - `mapped`: the result of `vmqRoutes.map(menuDataToRouter)`, `None` when
 *     that conversion throws;
 *   - `installs`: whether `registerDynamicRoutes` returns normally;
 *   - `Location.matched`: `to.matched.length`, as vue-router computes it;
 *   - `Aliases`: the login and 404 paths of `RoutesAlias`.
 * The home path `useCommon().homePath` is taken to be `getFirstMenuPath` of
 * the menu list the guard stores (`FirstMenuPath(menuList)`).
 */
module BeforeEach {
  import opened Wrappers
  import opened Menu
  import opened RoleFilter
  import opened RouteUtil
  import opened User

  /** What the guard reads of the target route `to`; `noLogin` is `to.meta.noLogin`. */
  datatype Location = Location(path: string, query: string, hash: string, noLogin: bool, matched: nat)

  /**
   * The guard's answer: `next()`, `next(location)` (a bare path is a
   * location with empty query and hash and no `replace`), or
   * `next('/exception/500')`.
   */
  datatype Decision =
    | Proceed
    | Redirect(path: string, query: string, hash: string, replace: bool)
    | Error500

  /** `RoutesAlias.Login` and `RoutesAlias.Exception404`. */
  datatype Aliases = Aliases(login: string, exception404: string)

  /**
   * The state that survives between navigations: the registration flag, the
   * menu store's menu list, and the session store.
   */
  datatype GuardState = GuardState(registered: bool, menuList: seq<RouteRecord>, user: UserState)

  /** The state after one navigation and the decision it produced. */
  datatype Step = Step(state: GuardState, decision: Decision)

  /** `handleLoginStatus`'s test: logged out, not on the login page, and the target does not waive login. */
  predicate MustLogIn(user: UserState, to: Location, aliases: Aliases) {
    !user.isLogin && to.path != aliases.login && !to.noLogin
  }

  /** `handleRootPathRedirect`: a target of `/` is redirected, replacing history, to a non-empty home path. */
  function RootRedirect(to: Location, menuList: seq<RouteRecord>): (r: Option<Decision>)
    ensures r.Some? <==> to.path == "/" && FirstMenuPath(menuList) != ""
    ensures r.Some? ==> r.value == Redirect(FirstMenuPath(menuList), "", "", true) && r.value.path[0] == '/'
  {
    FirstMenuPathAbsolute(menuList);
    if to.path == "/" && FirstMenuPath(menuList) != "" then Some(Redirect(FirstMenuPath(menuList), "", "", true))
    else None
  }

  /** Navigating again to the same path, query and hash, replacing the history entry. */
  function Replay(to: Location): Decision {
    Redirect(to.path, to.query, to.hash, true)
  }

  /** The user information the registration pass installs when no roles are known. */
  const AdminDefaultInfo: UserInfo :=
    UserInfo(id := None, userId := Some(1), username := None, userName := Some("admin"), email := None,
             role := None, roles := Some(["admin"]), buttons := Some([]), avatar := Some(""), createdAt := None)

  /** Roles absent or empty are replaced, with the whole user information, by the `admin` defaults. */
  function WithDefaultRoles(user: UserState): (r: UserState)
    ensures r.info.roles.Some? && |r.info.roles.value| > 0
    ensures user.info.roles.Some? && |user.info.roles.value| > 0 ==> r == user
    ensures user.info.roles.None? || |user.info.roles.value| == 0 ==> r == user.(info := AdminDefaultInfo)
  {
    if user.info.roles.None? || |user.info.roles.value| == 0 then user.(info := AdminDefaultInfo) else user
  }

  /** The roles the registration pass filters with. */
  function PassRoles(user: UserState): seq<string> {
    WithDefaultRoles(user).info.roles.value
  }

  /** `isValidMenuList`: a menu list is usable when it is not empty. */
  predicate IsValidMenuList(menuList: seq<RouteRecord>) {
    |menuList| > 0
  }

  /** The pass succeeds exactly when the menu converts, the filter leaves something, and registering returns. */
  predicate PassSucceeds(user: UserState, mapped: Option<seq<RouteRecord>>, installs: bool) {
    mapped.Some? && IsValidMenuList(FilterMenuByRoles(mapped.value, PassRoles(user))) && installs
  }

  /**
   * One registration pass (`getMenuData`): convert the menu, install default
   * roles if needed, filter by role, then store and register. On success the
   * flag is set and the filtered menu stored; on any failure the user is
   * logged out and the flag is left as it was. The filtered menu is stored
   * before `registerDynamicRoutes` runs, so it stays stored when only that
   * call fails.
   */
  function RegisterPass(g: GuardState, mapped: Option<seq<RouteRecord>>, installs: bool): (r: (GuardState, bool))
    ensures r.1 == PassSucceeds(g.user, mapped, installs)
    ensures r.1 ==> r.0 == GuardState(true, FilterMenuByRoles(mapped.value, PassRoles(g.user)), WithDefaultRoles(g.user))
    ensures !r.1 ==> r.0.registered == g.registered && r.0.user == LoggedOut(g.user)
    ensures !r.1 && mapped.Some? && IsValidMenuList(FilterMenuByRoles(mapped.value, PassRoles(g.user))) ==>
      r.0.menuList == FilterMenuByRoles(mapped.value, PassRoles(g.user))
    ensures !r.1 && (mapped.None? || !IsValidMenuList(FilterMenuByRoles(mapped.value, PassRoles(g.user)))) ==>
      r.0.menuList == g.menuList
  {
    if mapped.None? then (g.(user := LoggedOut(g.user)), false)
    else
      var user := WithDefaultRoles(g.user);
      var filtered := FilterMenuByRoles(mapped.value, user.info.roles.value);
      if !IsValidMenuList(filtered) then (g.(user := LoggedOut(user)), false)
      else if !installs then (g.(menuList := filtered, user := LoggedOut(user)), false)
      else (GuardState(true, filtered, user), true)
  }

  /**
   * `handleDynamicRoutes`: run the pass; on failure answer 500; on success
   * redirect `/` to the new home path, or else replay the target.
   */
  function DynamicRoutes(g: GuardState, to: Location, mapped: Option<seq<RouteRecord>>, installs: bool): (r: Step)
    ensures r.decision == Error500 <==> !PassSucceeds(g.user, mapped, installs)
    ensures r.decision != Proceed
    ensures PassSucceeds(g.user, mapped, installs) ==>
      r.state.registered && IsValidMenuList(r.state.menuList) && r.decision.Redirect? && r.decision.replace
  {
    var (g', ok) := RegisterPass(g, mapped, installs);
    if !ok then Step(g', Error500)
    else
      match RootRedirect(to, g'.menuList)
      case Some(d) => Step(g', d)
      case None => Step(g', Replay(to))
  }

  /** `handleRouteGuard`: one navigation, as a function of the state before it. */
  function Navigate(g: GuardState, to: Location, aliases: Aliases, mapped: Option<seq<RouteRecord>>, installs: bool): (r: Step)
    ensures r.decision == Proceed ==> r.state == g
    ensures r.decision == Error500 ==> !r.state.registered && r.state.user == LoggedOut(g.user)
    ensures r.state.user == g.user || r.state.user == LoggedOut(g.user) || r.state.user == WithDefaultRoles(g.user)
    ensures r.state.registered ==> (g.registered && r.state.menuList == g.menuList) || IsValidMenuList(r.state.menuList)
  {
    if MustLogIn(g.user, to, aliases) then
      Step(g.(user := LoggedOut(g.user)), Redirect(aliases.login, "", "", false))
    else if !g.registered && g.user.isLogin then
      DynamicRoutes(g, to, mapped, installs)
    else if g.user.isLogin && g.registered && RootRedirect(to, g.menuList).Some? then
      Step(g, RootRedirect(to, g.menuList).value)
    else if to.matched > 0 then
      Step(g, Proceed)
    else if g.user.isLogin then
      DynamicRoutes(g.(registered := false), to, mapped, installs)
    else
      Step(g, Redirect(aliases.exception404, "", "", false))
  }

  /** `resetRouterState`: the flag cleared and the stored menu emptied; the session is untouched. */
  function Reset(g: GuardState): (r: GuardState)
    ensures !r.registered && r.menuList == [] && r.user == g.user
    ensures Invariant(r)
  {
    g.(registered := false, menuList := [])
  }

  /** A registered guard always holds a usable menu. */
  predicate Invariant(g: GuardState) {
    g.registered ==> IsValidMenuList(g.menuList)
  }

  // ----- Properties of one navigation -----

  /**
   * A logged-out user heading for a page that needs login is logged out and
   * sent to the login page; the registration flag and the stored menu stay
   * as they were.
   */
  lemma LoggedOutGoesToLogin(g: GuardState, to: Location, aliases: Aliases, mapped: Option<seq<RouteRecord>>, installs: bool)
    requires MustLogIn(g.user, to, aliases)
    ensures Navigate(g, to, aliases, mapped, installs) ==
      Step(GuardState(g.registered, g.menuList, LoggedOut(g.user)), Redirect(aliases.login, "", "", false))
  {
  }

  /**
   * A logged-in user whose routes are not registered always gets a
   * registration pass, whatever the target matches. On success the flag is
   * set, the filtered menu stored, and the target is either `/` sent to the
   * home path or replayed with `replace`; on failure the user is logged out,
   * the flag stays false and the answer is 500.
   */
  lemma FirstNavigationRegisters(g: GuardState, to: Location, aliases: Aliases, mapped: Option<seq<RouteRecord>>, installs: bool, matched: nat)
    requires g.user.isLogin && !g.registered
    ensures Navigate(g, to, aliases, mapped, installs) == Navigate(g, to.(matched := matched), aliases, mapped, installs)
    ensures var s := Navigate(g, to, aliases, mapped, installs);
      if PassSucceeds(g.user, mapped, installs) then
        s.state == GuardState(true, FilterMenuByRoles(mapped.value, PassRoles(g.user)), WithDefaultRoles(g.user)) &&
        s.decision == (if to.path == "/" && FirstMenuPath(s.state.menuList) != ""
                       then Redirect(FirstMenuPath(s.state.menuList), "", "", true) else Replay(to))
      else
        !s.state.registered && s.state.user == LoggedOut(g.user) && s.decision == Error500
  {
  }

  /**
   * When the filtered menu is empty or the menu cannot be converted, the
   * user is logged out, the flag stays false, nothing is stored and the
   * answer is 500.
   */
  lemma EmptyMenuFails(g: GuardState, to: Location, aliases: Aliases, mapped: Option<seq<RouteRecord>>, installs: bool)
    requires g.user.isLogin && !g.registered
    requires mapped.None? || FilterMenuByRoles(mapped.value, PassRoles(g.user)) == []
    ensures Navigate(g, to, aliases, mapped, installs) == Step(GuardState(false, g.menuList, LoggedOut(g.user)), Error500)
  {
  }

  /** When registering fails after the menu was stored, the menu stays stored but the flag stays false. */
  lemma RegisteringThrowsKeepsMenu(g: GuardState, to: Location, aliases: Aliases, menu: seq<RouteRecord>)
    requires g.user.isLogin && !g.registered
    requires FilterMenuByRoles(menu, PassRoles(g.user)) != []
    ensures Navigate(g, to, aliases, Some(menu), false) ==
      Step(GuardState(false, FilterMenuByRoles(menu, PassRoles(g.user)), LoggedOut(g.user)), Error500)
  {
  }

  /** Logged in and registered, `/` goes to the home path with `replace`, before matching is looked at. */
  lemma RegisteredRootGoesHome(g: GuardState, to: Location, aliases: Aliases, mapped: Option<seq<RouteRecord>>, installs: bool)
    requires g.user.isLogin && g.registered && to.path == "/" && FirstMenuPath(g.menuList) != ""
    ensures Navigate(g, to, aliases, mapped, installs) == Step(g, Redirect(FirstMenuPath(g.menuList), "", "", true))
  {
  }

  /** A target that matches, once login and registration are settled and no home redirect applies, proceeds and changes nothing. */
  lemma MatchedProceeds(g: GuardState, to: Location, aliases: Aliases, mapped: Option<seq<RouteRecord>>, installs: bool)
    requires !MustLogIn(g.user, to, aliases) && (g.user.isLogin ==> g.registered)
    requires !(g.user.isLogin && RootRedirect(to, g.menuList).Some?)
    requires to.matched > 0
    ensures Navigate(g, to, aliases, mapped, installs) == Step(g, Proceed)
  {
  }

  /** A logged-in user's unmatched target resets the flag and runs the whole registration pass again. */
  lemma UnmatchedReRegisters(g: GuardState, to: Location, aliases: Aliases, mapped: Option<seq<RouteRecord>>, installs: bool)
    requires g.user.isLogin && g.registered && RootRedirect(to, g.menuList).None? && to.matched == 0
    ensures Navigate(g, to, aliases, mapped, installs) == DynamicRoutes(g.(registered := false), to, mapped, installs)
  {
  }

  /** A logged-out user's unmatched target (the login page or a `noLogin` page) goes to 404, changing nothing. */
  lemma UnmatchedLoggedOutNotFound(g: GuardState, to: Location, aliases: Aliases, mapped: Option<seq<RouteRecord>>, installs: bool)
    requires !g.user.isLogin && (to.path == aliases.login || to.noLogin) && to.matched == 0
    ensures Navigate(g, to, aliases, mapped, installs) == Step(g, Redirect(aliases.exception404, "", "", false))
  {
  }

  /** A logged-in user never reaches the 404 decision: an unmatched target is always registered again instead. */
  lemma LoggedInNeverNotFound(g: GuardState, to: Location, aliases: Aliases, mapped: Option<seq<RouteRecord>>, installs: bool)
    requires g.user.isLogin
    ensures Navigate(g, to, aliases, mapped, installs).decision != Redirect(aliases.exception404, "", "", false)
  {
  }

  /**
   * There is no retry limit: for a logged-in user whose target never matches,
   * a successful pass answers a replay of the same target, and navigating to
   * that replay leads to exactly the same state and answer again.
   */
  lemma {:induction false} UnmatchedReplaysForever(g: GuardState, to: Location, aliases: Aliases, menu: seq<RouteRecord>)
    requires g.user.isLogin && to.matched == 0 && to.path != "/"
    requires FilterMenuByRoles(menu, PassRoles(g.user)) != []
    ensures var s := Navigate(g, to, aliases, Some(menu), true);
      s.decision == Replay(to) && s.state.registered &&
      Navigate(s.state, to, aliases, Some(menu), true) == s
  {
    var s := Navigate(g, to, aliases, Some(menu), true);
    var u := WithDefaultRoles(g.user);
    assert s.state == GuardState(true, FilterMenuByRoles(menu, PassRoles(g.user)), u);
    assert WithDefaultRoles(u) == u;
    assert PassRoles(u) == PassRoles(g.user);
  }

  /** Every navigation keeps a registered guard's menu non-empty. */
  lemma NavigatePreservesInvariant(g: GuardState, to: Location, aliases: Aliases, mapped: Option<seq<RouteRecord>>, installs: bool)
    requires Invariant(g)
    ensures Invariant(Navigate(g, to, aliases, mapped, installs).state)
  {
  }

  /** After `resetRouterState`, a logged-in user's next navigation registers again. */
  lemma ResetForcesRegistration(g: GuardState, to: Location, aliases: Aliases, mapped: Option<seq<RouteRecord>>, installs: bool)
    requires g.user.isLogin
    ensures Invariant(Reset(g))
    ensures Navigate(Reset(g), to, aliases, mapped, installs) == DynamicRoutes(Reset(g), to, mapped, installs)
  {
  }

  /** The guard's state: the flag `isRouteRegistered`, the menu store's list, and the session store it reads. */
  class RouteGuard {
    const aliases: Aliases
    const user: UserStore
    var isRouteRegistered: bool
    /** The menu store's `menuList`. */
    var menuList: seq<RouteRecord>

    function State(): GuardState
      reads this, user, user.worktabs
    {
      GuardState(isRouteRegistered, menuList, user.Model())
    }

    constructor (aliases: Aliases, user: UserStore)
      ensures this.aliases == aliases && this.user == user
      ensures State() == GuardState(false, [], user.Model())
    {
      this.aliases := aliases;
      this.user := user;
      isRouteRegistered := false;
      menuList := [];
    }

    /** `handleLoginStatus`: logs out and answers false when login is required. */
    method HandleLoginStatus(to: Location) returns (proceed: bool)
      modifies user, user.worktabs
      ensures proceed == !MustLogIn(old(user.Model()), to, aliases)
      ensures user.Model() == if proceed then old(user.Model()) else LoggedOut(old(user.Model()))
    {
      if !user.isLogin && to.path != aliases.login && !to.noLogin {
        user.LogOut();
        return false;
      }
      return true;
    }

    /** `handleRootPathRedirect`: the redirect to the home path, when it applies. */
    method HandleRootPathRedirect(to: Location) returns (d: Option<Decision>)
      ensures d.Some? <==> to.path == "/" && FirstMenuPath(menuList) != ""
      ensures d.Some? ==> d.value == Redirect(FirstMenuPath(menuList), "", "", true) && d.value.path[0] == '/'
    {
      if to.path == "/" {
        var homePath := GetFirstMenuPath(menuList);
        if homePath != "" {
          return Some(Redirect(homePath, "", "", true));
        }
      }
      return None;
    }

    /**
     * `registerAndStoreMenu`: refuses an empty menu; otherwise stores it,
     * registers it (`installs` says whether that returns) and sets the flag.
     */
    method RegisterAndStoreMenu(filtered: seq<RouteRecord>, installs: bool) returns (ok: bool)
      modifies this
      ensures ok == (IsValidMenuList(filtered) && installs)
      ensures isRouteRegistered == (ok || old(isRouteRegistered))
      ensures menuList == if IsValidMenuList(filtered) then filtered else old(menuList)
    {
      if !IsValidMenuList(filtered) {
        return false;
      }
      menuList := filtered;
      if !installs {
        return false;
      }
      isRouteRegistered := true;
      ok := true;
    }

    /**
     * `processVmqMenu`: convert the menu, install the `admin` defaults when no
     * roles are known, filter, then store and register. (Its check that roles
     * exist cannot fail after the defaults are installed, so it has no branch.)
     */
    method ProcessVmqMenu(mapped: Option<seq<RouteRecord>>, installs: bool) returns (ok: bool)
      modifies this, user
      ensures ok == PassSucceeds(old(user.Model()), mapped, installs)
      ensures ok ==> State() == RegisterPass(old(State()), mapped, installs).0
      ensures !ok ==> isRouteRegistered == old(isRouteRegistered) &&
                      menuList == RegisterPass(old(State()), mapped, installs).0.menuList
      ensures user.Model() == if mapped.Some? then WithDefaultRoles(old(user.Model())) else old(user.Model())
    {
      if mapped.None? {
        return false;
      }
      if user.info.roles.None? || |user.info.roles.value| == 0 {
        user.SetUserInfo(AdminDefaultInfo);
      }
      var roles := user.info.roles.value;
      var filtered := FilterMenuByRoles(mapped.value, roles);
      ok := RegisterAndStoreMenu(filtered, installs);
    }

    /** `handleMenuError`: any failure of the pass logs the user out. */
    method HandleMenuError()
      modifies user, user.worktabs
      ensures user.Model() == LoggedOut(old(user.Model()))
    {
      user.LogOut();
    }

    /** `getMenuData`: one registration pass; a failure is handled by logging out. */
    method GetMenuData(mapped: Option<seq<RouteRecord>>, installs: bool) returns (ok: bool)
      modifies this, user, user.worktabs
      ensures (State(), ok) == RegisterPass(old(State()), mapped, installs)
    {
      ok := ProcessVmqMenu(mapped, installs);
      if !ok {
        HandleMenuError();
      }
    }

    /** `handleDynamicRoutes`. */
    method HandleDynamicRoutes(to: Location, mapped: Option<seq<RouteRecord>>, installs: bool) returns (d: Decision)
      modifies this, user, user.worktabs
      ensures Step(State(), d) == DynamicRoutes(old(State()), to, mapped, installs)
    {
      var ok := GetMenuData(mapped, installs);
      if !ok {
        return Error500;
      }
      var home := HandleRootPathRedirect(to);
      if home.Some? {
        return home.value;
      }
      d := Replay(to);
    }

    /**
     * `handleRouteGuard`. The worktab and page-title updates of a matched
     * target are not modelled.
     */
    method HandleRouteGuard(to: Location, mapped: Option<seq<RouteRecord>>, installs: bool) returns (d: Decision)
      modifies this, user, user.worktabs
      ensures Step(State(), d) == Navigate(old(State()), to, aliases, mapped, installs)
    {
      var proceed := HandleLoginStatus(to);
      if !proceed {
        return Redirect(aliases.login, "", "", false);
      }
      if !isRouteRegistered && user.isLogin {
        d := HandleDynamicRoutes(to, mapped, installs);
        return;
      }
      if user.isLogin && isRouteRegistered {
        var home := HandleRootPathRedirect(to);
        if home.Some? {
          return home.value;
        }
      }
      if to.matched > 0 {
        return Proceed;
      }
      if user.isLogin {
        isRouteRegistered := false;
        d := HandleDynamicRoutes(to, mapped, installs);
        return;
      }
      d := Redirect(aliases.exception404, "", "", false);
    }

    /** `resetRouterState`. */
    method ResetRouterState()
      modifies this
      ensures State() == Reset(old(State()))
    {
      isRouteRegistered := false;
      menuList := [];
    }
  }
}
