# vmqfox-frontend navigation guard, modelled in Dafny

This project models how the vmqfox admin frontend decides about each page
navigation. The model covers five parts:

- **The global before-each guard.** It handles the login check, the
  dynamic-route registration pass, the redirect from `/` to the home path,
  matched routes, the re-registration of unmatched routes, and 404.
- **The role filter.** It prunes the menu tree by the roles the user holds.
- **The home-path search `getFirstMenuPath`.** It walks the menu depth-first
  and returns the first leaf's full path.
- **The session store `useUserStore`.** It holds the login and lock state,
  tokens and user information, with its setters, `vmqLogin` and `logOut`.
- **The static menu `vmqRoutes`.** Every entry of it is reserved to `admin`.

Files:

- `wrappers.dfy`: `Option`.
- `menu.dfy`: the menu entry `RouteRecord` and its `meta`. A missing
  `children` key is `Absent`; `children: []` is `Present([])`.
- `role_filter.dfy`: `filterMenuByRoles` and its properties. The filter is
  sound at every depth, keeps the original order, copies fields unchanged,
  is idempotent, and hides an entry that declares `roles: []`.
- `route_util.dfy`: `isIframe`, `isValidMenuItem`, `normalizePath`, the path
  join with slash collapsing, and `findPath`/`getFirstMenuPath`. The search
  is an imperative method with a loop. It is proved equal to a recursive
  specification, and the result is shown to be the first depth-first
  candidate.
- `user_store.dfy`: the session store as a class whose every method states
  its whole new state, plus a pure model (`WithToken`, `LoggedOut`,
  `LoggedIn`) of the same transitions.
- `before_each.dfy`: the guard in two forms.
  - `Navigate` is the whole decision, as a function of the state before it.
  - `RouteGuard` is a class with the flag `isRouteRegistered`, the menu
    store's list and the session store. Its methods follow the source's
    helper functions one by one, and each states its whole effect in terms
    of the pure model.
  - Lemmas state the guard's behaviour branch by branch.
- `vmq_routes.dfy`: the static menu as constants, with facts about it:
  - its shape of seven entries and eleven distinct names;
  - components appear only on leaves;
  - the home path is `/dashboard`;
  - `add` and `manage` resolve below their group;
  - filtering it is the identity with `admin` and empty without.
- `scenarios.dfy`: whole journeys. Examples are an anonymous visit, an
  admin's first visit, a role that sees nothing, and a re-login with a stale
  menu.

Collaborators whose code is not part of this model are parameters:

- `mapped` is the result of `vmqRoutes.map(menuDataToRouter)`; `None` means
  it threw.
- `installs` says whether `registerDynamicRoutes` returned normally.
- `Location.matched` is `to.matched.length`.
- `Aliases` holds the `RoutesAlias` login and 404 paths.
- The home path that `useCommon()` provides is taken to be
  `getFirstMenuPath` of the stored menu list.

`now` in the login stands for the clock reading `new Date().toISOString()`.
The response of the login request is a parameter; `None` means the request
failed.

## Model

| member | source | states |
|---|---|---|
| RoleFilter.HasPermission | src/router/guards/beforeEach.ts:250-251 | defines visibility: an entry without `roles` is visible to everyone, one with `roles` only to a holder of one of them |
| RoleFilter.FilterMenuByRoles | src/router/guards/beforeEach.ts:248-263 | never longer than its input; every returned entry is visible to the roles |
| RoleFilter.FilterItem | src/router/guards/beforeEach.ts:254-257 | a kept entry keeps path, name, component and meta; children are filtered only when there is at least one; a missing `children` stays missing and `[]` stays `[]` |
| RoleFilter.FilterSelectsInOrder | src/router/guards/beforeEach.ts:248-262 | the output is the copies of the entries at increasing kept positions, in input order |
| RoleFilter.KeptIffVisible | src/router/guards/beforeEach.ts:250-253 | a position is kept if and only if its entry declares no roles or shares a role with the held ones |
| RoleFilter.FilterDeepSound | src/router/guards/beforeEach.ts:248-263 | no entry at any depth of the result is hidden from the roles |
| RoleFilter.FilterItemDeepSound | src/router/guards/beforeEach.ts:255-257 | the filtered children of a kept entry are visible at every depth |
| RoleFilter.FilterIdempotent | src/router/guards/beforeEach.ts:248-263 | filtering twice with the same roles equals filtering once |
| RoleFilter.FilterItemIdempotent | src/router/guards/beforeEach.ts:254-257 | copying a kept entry twice equals copying it once |
| RoleFilter.FilterKeepsPermitted | src/router/guards/beforeEach.ts:248-263 | a menu visible at every depth comes back unchanged |
| RoleFilter.FilterNoneVisible | src/router/guards/beforeEach.ts:249-262 | when no top-level entry is visible the result is empty |
| RoleFilter.EmptyRoleListHides | src/router/guards/beforeEach.ts:250-251 | an entry declaring `roles: []` is dropped whatever roles are held |
| RouteUtil.IsIframeIffPrefix | src/utils/navigation/route.ts:8-10 | a URL is an iframe route exactly when it is `/outside/iframe/` followed by anything |
| RouteUtil.NormalizePath | src/utils/navigation/route.ts:26-28 | the result starts with `/`; an absolute path is kept; any other gets `/` prepended |
| RouteUtil.NormalizePathIdempotent | src/utils/navigation/route.ts:26-28 | normalising twice equals normalising once |
| RouteUtil.IsIframe | src/utils/navigation/route.ts:8-10 | defines an iframe route as a URL beginning with `/outside/iframe/` |
| RouteUtil.IsBlank | src/utils/navigation/route.ts:18 | defines a blank path as one made only of the characters `trim` removes, so `trim() === ''` |
| RouteUtil.IsValidMenuItem | src/utils/navigation/route.ts:17-19 | defines a usable entry as one whose path is neither empty nor blank and which is not hidden |
| RouteUtil.CollapseSlashes | src/utils/navigation/route.ts:44 | the result has no `//`, is no longer than the input and keeps its first character |
| RouteUtil.CollapseSlashesSelects | src/utils/navigation/route.ts:44 | the result is exactly the characters of the input, in order, at the increasing positions `KeptChars`; a position is dropped if and only if it holds a `/` followed by another `/` |
| RouteUtil.CollapseSlashesKeeps | src/utils/navigation/route.ts:44 | a string without `//` is unchanged |
| RouteUtil.CollapseSlashesIdempotent | src/utils/navigation/route.ts:44 | collapsing twice equals collapsing once |
| RouteUtil.JoinPath | src/utils/navigation/route.ts:44 | an absolute entry path replaces the prefix; a relative one gives `parentPath + "/" + path` with every run of `/` collapsed to one, so no `//` is left; below an absolute or empty prefix the result is absolute |
| RouteUtil.JoinAtRoot | src/utils/navigation/route.ts:44 | below the root `/`, a relative path without `//` joins to `/` followed by the path: the doubled slash is collapsed |
| RouteUtil.JoinDashboardAtRoot | src/utils/navigation/route.ts:44 | `dashboard` below `/` joins to `/dashboard` |
| RouteUtil.ItemFirst | src/utils/navigation/route.ts:40-52 | the path an entry contributes, when any, is non-empty |
| RouteUtil.FirstLeafPath | src/utils/navigation/route.ts:38-54 | the path a list contributes, when any, is non-empty |
| RouteUtil.FirstLeafIsFirstCandidate | src/utils/navigation/route.ts:38-54 | the search answers the first depth-first candidate leaf, or nothing when there is none |
| RouteUtil.ItemFirstIsFirstCandidate | src/utils/navigation/route.ts:40-52 | the same for one entry and its subtree |
| RouteUtil.CandidatesAbsolute | src/utils/navigation/route.ts:38-54 | below an empty or absolute prefix every candidate path starts with `/` |
| RouteUtil.ItemCandidatesAbsolute | src/utils/navigation/route.ts:40-52 | the same for one entry and its subtree |
| RouteUtil.FirstMenuPathAbsolute | src/utils/navigation/route.ts:35-58 | a non-empty home path starts with `/` |
| RouteUtil.FirstMenuPath | src/utils/navigation/route.ts:35-58 | defines the home path as the search's answer below the prefix `""`, or `""` when the search finds nothing; its properties are the rows around it |
| RouteUtil.FirstMenuPathOfEmpty | src/utils/navigation/route.ts:35-58 | the empty menu has the home path `""` |
| RouteUtil.InvalidItemSkipped | src/utils/navigation/route.ts:40-42 | an entry with an empty, blank or hidden path contributes nothing, its subtree included |
| RouteUtil.LeafFirst | src/utils/navigation/route.ts:46-51 | a valid entry without children, or with `children: []`, is the answer when it comes first |
| RouteUtil.BranchNotCandidate | src/utils/navigation/route.ts:46-47 | a valid entry with children is never a candidate itself; only its subtree below its full path is |
| RouteUtil.FirstLeafPathSnoc | src/utils/navigation/route.ts:39-53 | extending the list by one entry keeps an earlier answer, and otherwise answers the new entry's |
| RouteUtil.FindPath | src/utils/navigation/route.ts:38-54 | the loop leaves an already-found home path alone, and otherwise finds the first leaf of `data` below `parentPath` |
| RouteUtil.GetFirstMenuPath | src/utils/navigation/route.ts:35-58 | returns `""` exactly when there is no candidate; otherwise the first candidate, which starts with `/` |
| User.WithToken | src/store/modules/user.ts:97-102 | the access token is replaced; the refresh token only by a non-empty value; nothing else changes |
| User.LoggedOut | src/store/modules/user.ts:146-165 | login, lock, lock password, tokens, info and opened tabs are cleared; language and search history are kept |
| User.LogOutIdempotent | src/store/modules/user.ts:146-165 | logging out twice equals logging out once |
| User.LogOutIsInitialButKept | src/store/modules/user.ts:19-34 | a logged-out store is the initial store except for language and search history |
| User.LoginRole | src/store/modules/user.ts:116 | the granted role is non-empty: the returned role, or `admin` when it is missing or empty |
| User.LoginInfo | src/store/modules/user.ts:117-129 | id and userId agree and fall back to 1 when missing or zero; username and userName agree, take the returned name when it is non-empty and fall back to the typed name otherwise; email is the returned one when present and `""` otherwise; roles is exactly the granted role; buttons empty; avatar empty; created at `now` |
| User.LoggedIn | src/store/modules/user.ts:109-129 | defines the store after a successful login: logged in, tokens set as `WithToken` sets them, info replaced by `LoginInfo`; its properties are `User.LoginGrantsOneRole` and `User.UserStore.VmqLogin` |
| User.LoginGrantsOneRole | src/store/modules/user.ts:109-129 | after login the user is logged in with exactly one non-empty role; only the login flag, tokens and info change |
| User.UserStore.constructor | src/store/modules/user.ts:19-34 | the store starts logged out, unlocked, in Chinese, with no tokens, no info and no search history |
| User.UserStore.SetUserInfo | src/store/modules/user.ts:47-49 | only the info changes |
| User.UserStore.SetLoginStatus | src/store/modules/user.ts:55-57 | only the login flag changes |
| User.UserStore.SetLanguage | src/store/modules/user.ts:63-66 | only the language changes |
| User.UserStore.SetSearchHistory | src/store/modules/user.ts:72-74 | only the search history changes |
| User.UserStore.SetLockStatus | src/store/modules/user.ts:80-82 | only the lock flag changes |
| User.UserStore.SetLockPassword | src/store/modules/user.ts:88-90 | only the lock password changes |
| User.UserStore.SetToken | src/store/modules/user.ts:97-102 | the new state is `WithToken` of the old one |
| User.UserStore.VmqLogin | src/store/modules/user.ts:109-140 | a failed request changes nothing and reports failure; a successful one leaves the store logged in with the mapped info and tokens |
| User.UserStore.LogOut | src/store/modules/user.ts:146-165 | the new state, opened worktabs included, is `LoggedOut` of the old one |
| BeforeEach.MustLogIn | src/router/guards/beforeEach.ts:106 | defines when login is required: logged out, the target is not the login page, and it does not carry `noLogin` |
| BeforeEach.IsValidMenuList | src/router/guards/beforeEach.ts:268-270 | defines a usable menu list as a non-empty one |
| BeforeEach.DynamicRoutes | src/router/guards/beforeEach.ts:117-140 | answers 500 exactly when the pass fails, and never lets the navigation proceed; after a successful pass the flag is set, the stored menu is non-empty and the answer is a redirect that replaces the history entry |
| BeforeEach.Navigate | src/router/guards/beforeEach.ts:46-96 | a navigation that proceeds changes nothing; a 500 leaves the user logged out and the flag false; the session either stays, is logged out, or gets the admin defaults; a set flag afterwards means the old flag and menu were kept or a non-empty menu is stored |
| BeforeEach.Reset | src/router/guards/beforeEach.ts:276-285 | afterwards the flag is false, the stored menu list is `[]`, the invariant holds and the session is untouched |
| BeforeEach.RootRedirect | src/router/guards/beforeEach.ts:293-302 | redirects, replacing history, exactly when the target is `/` and the home path is non-empty; the redirect target is absolute |
| BeforeEach.WithDefaultRoles | src/router/guards/beforeEach.ts:166-174 | afterwards roles exist and are non-empty; existing non-empty roles are kept; otherwise the info becomes the admin defaults |
| BeforeEach.RegisterPass | src/router/guards/beforeEach.ts:146-185 | succeeds exactly when the menu converts, the filtered menu is non-empty and registering returns; success sets the flag and stores the filtered menu; failure logs out and keeps the flag; the menu is stored only when registering itself failed |
| BeforeEach.LoggedOutGoesToLogin | src/router/guards/beforeEach.ts:101-112 | a logged-out user bound for a page that needs login is logged out and sent to login; flag and menu unchanged |
| BeforeEach.FirstNavigationRegisters | src/router/guards/beforeEach.ts:117-140 | logged in and unregistered, the pass runs whatever matches; on success `/` goes home and anything else is replayed with `replace`; on failure logout and 500 |
| BeforeEach.EmptyMenuFails | src/router/guards/beforeEach.ts:223-226 | an empty filtered menu, or a failing conversion, logs out, leaves the flag false, stores nothing and answers 500 |
| BeforeEach.RegisteringThrowsKeepsMenu | src/router/guards/beforeEach.ts:228-231 | when only registering fails the filtered menu stays stored, but the flag stays false and the answer is 500 |
| BeforeEach.RegisteredRootGoesHome | src/router/guards/beforeEach.ts:75-77 | logged in and registered, `/` goes to the home path with `replace`, whatever it matches |
| BeforeEach.MatchedProceeds | src/router/guards/beforeEach.ts:80-85 | a matched target proceeds and changes nothing once login and registration are settled |
| BeforeEach.UnmatchedReRegisters | src/router/guards/beforeEach.ts:88-92 | a logged-in user's unmatched target clears the flag and runs the whole pass again |
| BeforeEach.UnmatchedLoggedOutNotFound | src/router/guards/beforeEach.ts:94-95 | a logged-out user's unmatched target goes to 404 and changes nothing |
| BeforeEach.LoggedInNeverNotFound | src/router/guards/beforeEach.ts:46-96 | the guard never answers the 404 redirect to a logged-in user |
| BeforeEach.UnmatchedReplaysForever | src/router/guards/beforeEach.ts:87-92 | an always-unmatched target is replayed after a successful pass, and the replay reproduces the same state and answer: there is no retry limit |
| BeforeEach.NavigatePreservesInvariant | src/router/guards/beforeEach.ts:223-231 | a registered guard always holds a non-empty menu, before and after any navigation |
| BeforeEach.ResetForcesRegistration | src/router/guards/beforeEach.ts:276-285 | after the reset the invariant holds and a logged-in user's next navigation runs the pass |
| BeforeEach.RouteGuard.constructor | src/router/guards/beforeEach.ts:20 | the flag starts false and the menu empty |
| BeforeEach.RouteGuard.HandleLoginStatus | src/router/guards/beforeEach.ts:101-112 | answers false and logs out exactly when login is required; otherwise changes nothing |
| BeforeEach.RouteGuard.HandleRootPathRedirect | src/router/guards/beforeEach.ts:293-302 | redirects exactly when the target is `/` and the stored menu's home path is non-empty |
| BeforeEach.RouteGuard.RegisterAndStoreMenu | src/router/guards/beforeEach.ts:218-234 | rejects an empty menu and changes nothing; otherwise stores it; sets the flag only when registering returns |
| BeforeEach.RouteGuard.ProcessVmqMenu | src/router/guards/beforeEach.ts:158-185 | succeeds exactly as `RegisterPass` does with that state; afterwards the session store is the old one with the admin defaults installed when the conversion succeeded, and is unchanged when it threw |
| BeforeEach.RouteGuard.HandleMenuError | src/router/guards/beforeEach.ts:239-243 | the user is logged out |
| BeforeEach.RouteGuard.GetMenuData | src/router/guards/beforeEach.ts:146-153 | new state and outcome are exactly `RegisterPass` of the old state |
| BeforeEach.RouteGuard.HandleDynamicRoutes | src/router/guards/beforeEach.ts:117-140 | new state and decision are those of the pure `DynamicRoutes` |
| BeforeEach.RouteGuard.HandleRouteGuard | src/router/guards/beforeEach.ts:46-96 | new state and decision are those of the pure `Navigate` |
| BeforeEach.RouteGuard.ResetRouterState | src/router/guards/beforeEach.ts:276-285 | the flag is cleared and the menu emptied; the session is untouched |
| VmqRoutes.RoutesAdminOnly | src/router/routes/vmqRoutes.ts:8-127 | every entry at every depth declares exactly `['admin']` |
| RoleFilter.SameRolesPermitted | src/router/guards/beforeEach.ts:250-251 | a menu whose entries all declare the same roles is fully visible to a holder of one of them |
| VmqRoutes.AdminSeesEverything | src/router/routes/vmqRoutes.ts:8-127 | filtering the menu with `admin` among the roles returns it unchanged |
| VmqRoutes.OthersSeeNothing | src/router/routes/vmqRoutes.ts:8-127 | filtering the menu without `admin` returns the empty menu |
| VmqRoutes.RoutesNames | src/router/routes/vmqRoutes.ts:8-127 | the depth-first names of the menu are the eleven names of the source |
| VmqRoutes.RoutesShape | src/router/routes/vmqRoutes.ts:8-127 | seven top-level entries and eleven in all, no name used twice |
| VmqRoutes.RoutesComponents | src/router/routes/vmqRoutes.ts:8-127 | an entry has a component exactly when it has no children |
| VmqRoutes.RoutesHomePath | src/router/routes/vmqRoutes.ts:9-19 | the home path of the menu is `/dashboard` |
| RouteUtil.JoinRelative | src/utils/navigation/route.ts:44 | a relative child with no slash runs resolves to `parent/child` |
| VmqRoutes.GroupChildren | src/router/routes/vmqRoutes.ts:40-107 | the two groups hold exactly `add` and `manage`, in that order |
| VmqRoutes.WechatChildPaths | src/router/routes/vmqRoutes.ts:40-73 | the WeChat group's children resolve to `/wxqrcode/add` and `/wxqrcode/manage` |
| VmqRoutes.AlipayChildPaths | src/router/routes/vmqRoutes.ts:74-107 | the Alipay group's children resolve to `/zfbqrcode/add` and `/zfbqrcode/manage` |
| Scenarios.AnonymousVisitGoesToLogin | src/router/guards/beforeEach.ts:106-110 | a fresh session opening a protected page is sent to login and nothing is registered |
| Scenarios.AdminFirstVisitGoesHome | src/router/guards/beforeEach.ts:122-128 | an admin, or a user with no roles yet, opening `/` gets the whole menu registered and lands on `/dashboard` |
| Scenarios.AdminFirstVisitReplays | src/router/guards/beforeEach.ts:130-135 | an admin's first visit to any other page registers the menu and replays the visit with `replace` |
| Scenarios.OtherRoleGetsError | src/router/guards/beforeEach.ts:223-226 | a user holding only roles other than `admin` is logged out, nothing is registered or stored, and gets 500 |
| Scenarios.LoginThenHome | src/store/modules/user.ts:109-132 | a login granting `admin`, followed by the navigation to `/` it starts, ends on `/dashboard` with the menu registered |
| Scenarios.RegisteredPageProceeds | src/router/guards/beforeEach.ts:80-85 | once registered, a matched page proceeds with nothing changed |
| Scenarios.StaleMenuSurvivesRelogin | src/store/modules/user.ts:146-165 | after logout and a re-login with a role that sees nothing, the old registration still lets matched pages proceed and `/` go to `/dashboard` |
| Scenarios.ResetThenReloginFiltersAgain | src/router/guards/beforeEach.ts:276-285 | after the reset, such a re-login registers afresh, finds nothing visible and gets 500 |
| Scenarios.PrunedGroupBecomesHome | src/router/guards/beforeEach.ts:255-257 | a visible group whose children are all hidden keeps `children: []` and becomes the home path |

## Behaviour as written

Behaviour of the code worth knowing:

- `logOut` does not clear `isRouteRegistered` or the stored menu. Only
  `resetRouterState` does, and nothing in the modelled code calls it. A
  re-login therefore keeps the earlier registration
  (`Scenarios.StaleMenuSurvivesRelogin`).
- An unmatched target is registered again with no retry counter
  (`BeforeEach.UnmatchedReplaysForever`). The guard never answers the 404
  redirect `next(RoutesAlias.Exception404)` to a logged-in user
  (`BeforeEach.LoggedInNeverNotFound`). A logged-in user can still reach
  the 404 view through a catch-all route that the router matches; such a
  route is an ordinary matched target here, and the route table that holds
  it is not part of this model.
- Every failure of the registration pass logs the user out and answers 500.
  This includes a failing `registerDynamicRoutes`; it is not handled
  separately.
- A group whose children are all filtered out keeps `children: []`. That
  makes it a leaf and a possible home path (`Scenarios.PrunedGroupBecomesHome`).
- The guard's check that roles exist (`beforeEach.ts:177`) cannot fail after
  the admin defaults are installed, so `ProcessVmqMenu` has no branch for it.

## Left out

- Single-flight registration: overlapping navigations and suspension at each
  `await` are not modelled. Each navigation is treated as one atomic step.
- The 300 ms delay, the loading indicator, NProgress and the system theme
  are not modelled; they do not affect any decision.
- The worktab and page-title updates of a matched target (`setWorktab`,
  `setPageTitle`) are not modelled. Neither is `validateWorktabs` after
  registration.
- The router's own reaction to a decision is not modelled: route matching,
  the navigation that a redirect starts, and the calls to `router.push` in
  `vmqLogin` and `logOut`. Each navigation is one call of the guard.
- `menuDataToRouter` and `registerDynamicRoutes` are parameters (`mapped`,
  `installs`), because their code is not part of this model. The scenarios
  take the conversion to return the menu unchanged.
- `removeAllDynamicRoutes` in `resetRouterState` is not modelled. The live
  route table is not part of the state.
- The outer `catch` of `setupBeforeEachGuard` (`beforeEach.ts:33-38`) is not
  modelled. No modelled step throws past its own handler.
- `useCommon().homePath`: the model takes it to be `getFirstMenuPath` of the
  stored menu list, because `useCommon` is not part of this model.
- `processFrontendMenu`, `processBackendMenu` and the API modules are not
  modelled, because the guard never calls them. The login request itself is
  not modelled either; its response is a parameter.
- Persistence of the stores and the `sessionStorage` entry that `logOut`
  removes are not modelled.
- `User.UserStore.SetLanguage` does not model the page-title refresh, because
  it writes to the document, not the store.
