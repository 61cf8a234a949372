/**
 * Whole journeys through the guard with the application's own menu: what a
 * first visit, a login, a role without access and a later logout lead to.
 * The menu conversion `menuDataToRouter` is taken to return the menu as it
 * is (`mapped == Some(Routes)`).
 */
module Scenarios {
  import opened Wrappers
  import opened Menu
  import opened RoleFilter
  import opened RouteUtil
  import opened User
  import opened BeforeEach
  import opened VmqRoutes

  /** A fresh session that opens a page needing login is sent to the login page; nothing gets registered. */
  lemma AnonymousVisitGoesToLogin(to: Location, aliases: Aliases, installs: bool)
    requires to.path != aliases.login && !to.noLogin
    ensures Navigate(GuardState(false, [], Initial), to, aliases, Some(Routes), installs) ==
      Step(GuardState(false, [], Initial), Redirect(aliases.login, "", "", false))
  {
    LoggedOutGoesToLogin(GuardState(false, [], Initial), to, aliases, Some(Routes), installs);
  }

  /**
   * A logged-in user with the `admin` role, or with no roles yet, who opens
   * `/` before anything is registered gets the whole menu registered and is
   * sent to `/dashboard`, replacing the history entry.
   */
  lemma AdminFirstVisitGoesHome(u: UserState, menu: seq<RouteRecord>, to: Location, aliases: Aliases)
    requires u.isLogin && to.path == "/"
    requires u.info.roles.None? || |u.info.roles.value| == 0 || "admin" in u.info.roles.value
    ensures Navigate(GuardState(false, menu, u), to, aliases, Some(Routes), true) ==
      Step(GuardState(true, Routes, WithDefaultRoles(u)), Redirect("/dashboard", "", "", true))
  {
    assert "admin" in PassRoles(u);
    AdminSeesEverything(PassRoles(u));
    RoutesHomePath();
  }

  /** An admin's first visit to any other page registers the menu and replays the visit. */
  lemma AdminFirstVisitReplays(u: UserState, menu: seq<RouteRecord>, to: Location, aliases: Aliases)
    requires u.isLogin && to.path != "/"
    requires u.info.roles.Some? && "admin" in u.info.roles.value
    ensures Navigate(GuardState(false, menu, u), to, aliases, Some(Routes), true) ==
      Step(GuardState(true, Routes, u), Redirect(to.path, to.query, to.hash, true))
  {
    AdminSeesEverything(PassRoles(u));
  }

  /**
   * Every entry of the menu is reserved to `admin`, so a logged-in user who
   * holds only other roles gets an empty menu: logged out, nothing
   * registered or stored, and the 500 page.
   */
  lemma OtherRoleGetsError(u: UserState, menu: seq<RouteRecord>, to: Location, aliases: Aliases, installs: bool)
    requires u.isLogin && u.info.roles.Some? && |u.info.roles.value| > 0 && "admin" !in u.info.roles.value
    ensures Navigate(GuardState(false, menu, u), to, aliases, Some(Routes), installs) ==
      Step(GuardState(false, menu, LoggedOut(u)), Error500)
  {
    OthersSeeNothing(PassRoles(u));
    EmptyMenuFails(GuardState(false, menu, u), to, aliases, Some(Routes), installs);
  }

  /**
   * A login whose response grants `admin` (or no role, which defaults to it)
   * followed by the navigation to `/` that the login starts ends on
   * `/dashboard` with the menu registered.
   */
  lemma LoginThenHome(s: UserState, menu: seq<RouteRecord>, result: LoginResult, username: string, now: string, aliases: Aliases)
    requires LoginRole(result) == "admin"
    ensures var u := LoggedIn(s, result, username, now);
      Navigate(GuardState(false, menu, u), Location("/", "", "", false, 0), aliases, Some(Routes), true) ==
      Step(GuardState(true, Routes, u), Redirect("/dashboard", "", "", true))
  {
    var u := LoggedIn(s, result, username, now);
    assert u.info.roles == Some(["admin"]);
    AdminFirstVisitGoesHome(u, menu, Location("/", "", "", false, 0), aliases);
  }

  /** Once registered, an admin opening a menu page proceeds without anything changing. */
  lemma RegisteredPageProceeds(u: UserState, to: Location, aliases: Aliases, mapped: Option<seq<RouteRecord>>, installs: bool)
    requires u.isLogin && to.path != "/" && to.matched > 0
    ensures Navigate(GuardState(true, Routes, u), to, aliases, mapped, installs) == Step(GuardState(true, Routes, u), Proceed)
  {
  }

  /**
   * Logging out does not clear the registration flag or the stored menu. A
   * user who then logs in with a role that sees nothing of the menu is not
   * filtered again: a page of the earlier menu proceeds, and `/` still
   * leads to `/dashboard`.
   */
  lemma StaleMenuSurvivesRelogin(u: UserState, result: LoginResult, username: string, now: string,
                                 to: Location, aliases: Aliases, mapped: Option<seq<RouteRecord>>, installs: bool)
    requires LoginRole(result) != "admin"
    requires to.path != "/" && to.matched > 0
    ensures var g := GuardState(true, Routes, LoggedOut(u));
      var v := LoggedIn(g.user, result, username, now);
      FilterMenuByRoles(Routes, v.info.roles.value) == [] &&
      Navigate(g.(user := v), to, aliases, mapped, installs) == Step(g.(user := v), Proceed) &&
      Navigate(g.(user := v), Location("/", "", "", false, 0), aliases, mapped, installs) ==
        Step(g.(user := v), Redirect("/dashboard", "", "", true))
  {
    var v := LoggedIn(LoggedOut(u), result, username, now);
    assert v.info.roles.value == [LoginRole(result)];
    OthersSeeNothing(v.info.roles.value);
    RoutesHomePath();
  }

  /** Resetting the router state after a logout makes the next login register afresh with its own roles. */
  lemma ResetThenReloginFiltersAgain(u: UserState, result: LoginResult, username: string, now: string,
                                     to: Location, aliases: Aliases, installs: bool)
    requires LoginRole(result) != "admin"
    ensures var v := LoggedIn(LoggedOut(u), result, username, now);
      Navigate(Reset(GuardState(true, Routes, v)), to, aliases, Some(Routes), installs) ==
        Step(GuardState(false, [], LoggedOut(v)), Error500)
  {
    var v := LoggedIn(LoggedOut(u), result, username, now);
    OtherRoleGetsError(v, [], to, aliases, installs);
  }

  /**
   * A visible group all of whose children are hidden keeps an empty
   * `children` list after filtering, and so becomes a leaf: on its own it is
   * the home path.
   */
  lemma PrunedGroupBecomesHome(item: RouteRecord, roles: seq<string>)
    requires IsValidMenuItem(item) && HasChildren(item) && HasPermission(item, roles)
    requires forall k :: 0 <= k < |item.children.items| ==> !HasPermission(item.children.items[k], roles)
    ensures FilterMenuByRoles([item], roles) == [item.(children := Present([]))]
    ensures FirstMenuPath(FilterMenuByRoles([item], roles)) == JoinPath("", item.path)
  {
    FilterNoneVisible(item.children.items, roles);
    var f := item.(children := Present([]));
    assert [item][1..] == [];
    assert FilterMenuByRoles([item], roles) == [f];
    LeafFirst(f, [], "");
    assert [f] + [] == [f];
  }
}
