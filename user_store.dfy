/**
 * The session store of the application (`useUserStore`): login status,
 * lock-screen state, user information and tokens, with its setters, the
 * mapping of a login result to user information, and `logOut`.
 */
module User {
  import opened Wrappers
  import opened Menu

  /** `LanguageEnum`; only its initial value `ZH` matters to the core. */
  datatype Language = Zh | En

  /** `Partial<UserInfo>`: every key may be missing; `{}` is `NoInfo`. */
  datatype UserInfo = UserInfo(
    id: Option<int>,
    userId: Option<int>,
    username: Option<string>,
    userName: Option<string>,
    email: Option<string>,
    role: Option<string>,
    roles: Option<seq<string>>,
    buttons: Option<seq<string>>,
    avatar: Option<string>,
    createdAt: Option<string>)

  const NoInfo: UserInfo := UserInfo(None, None, None, None, None, None, None, None, None, None)

  /**
   * The observable state of the store, together with the worktab store's
   * list of opened tabs, which `logOut` also clears.
   */
  datatype UserState = UserState(
    language: Language,
    isLogin: bool,
    isLock: bool,
    lockPassword: string,
    info: UserInfo,
    searchHistory: seq<RouteRecord>,
    accessToken: string,
    refreshToken: string,
    openedTabs: seq<string>)

  /** The store as created: logged out, unlocked, no tokens, `info = {}`. */
  const Initial: UserState := UserState(Zh, false, false, "", NoInfo, [], "", "", [])

  /**
   * `setToken`: the access token is always replaced; the refresh token only
   * when a non-empty one is given (JavaScript truthiness), else it is kept.
   */
  function WithToken(s: UserState, newAccessToken: string, newRefreshToken: Option<string>): (r: UserState)
    ensures r.accessToken == newAccessToken
    ensures r.refreshToken == (if newRefreshToken.Some? && newRefreshToken.value != "" then newRefreshToken.value else s.refreshToken)
    ensures r.(accessToken := s.accessToken, refreshToken := s.refreshToken) == s
  {
    var refresh := if newRefreshToken.Some? && newRefreshToken.value != "" then newRefreshToken.value else s.refreshToken;
    s.(accessToken := newAccessToken, refreshToken := refresh)
  }

  /**
   * `logOut`: user information, login and lock state, lock password and both
   * tokens are cleared, as are the opened worktabs; the language and the
   * search history are kept.
   */
  function LoggedOut(s: UserState): (r: UserState)
    ensures !r.isLogin && !r.isLock && r.info == NoInfo
    ensures r.lockPassword == "" && r.accessToken == "" && r.refreshToken == "" && r.openedTabs == []
    ensures r.language == s.language && r.searchHistory == s.searchHistory
  {
    s.(info := NoInfo, isLogin := false, isLock := false, lockPassword := "",
       accessToken := "", refreshToken := "", openedTabs := [])
  }

  /** Logging out twice leaves the store as logging out once does. */
  lemma LogOutIdempotent(s: UserState)
    ensures LoggedOut(LoggedOut(s)) == LoggedOut(s)
  {
  }

  /** Logging out restores the initial store, except for what it keeps. */
  lemma LogOutIsInitialButKept(s: UserState)
    ensures LoggedOut(s) == Initial.(language := s.language, searchHistory := s.searchHistory)
  {
  }

  /** The `user` part of a login response; each key may be missing. */
  datatype LoginUser = LoginUser(id: Option<int>, username: Option<string>, email: Option<string>, role: Option<string>)

  /** What the login request returns (the request itself is not modelled). */
  datatype LoginResult = LoginResult(accessToken: string, refreshToken: Option<string>, user: Option<LoginUser>)

  /** JavaScript's `x || fallback` for a number: missing and `0` fall back. */
  function IntOr(x: Option<int>, fallback: int): int {
    if x.Some? && x.value != 0 then x.value else fallback
  }

  /** JavaScript's `x || fallback` for a string: missing and `""` fall back. */
  function StringOr(x: Option<string>, fallback: string): string {
    if x.Some? && x.value != "" then x.value else fallback
  }

  /** The role a login grants: the returned role, or `admin` when it is missing or empty. */
  function LoginRole(result: LoginResult): (role: string)
    ensures role != ""
    ensures result.user.Some? && result.user.value.role.Some? && result.user.value.role.value != "" ==>
      role == result.user.value.role.value
    ensures (result.user.None? || result.user.value.role.None? || result.user.value.role.value == "") ==>
      role == "admin"
  {
    StringOr(if result.user.Some? then result.user.value.role else None, "admin")
  }

  /**
   * The user information a login installs. `now` stands for the clock
   * reading `new Date().toISOString()`.
   */
  function LoginInfo(result: LoginResult, username: string, now: string): (info: UserInfo)
    ensures info.roles == Some([LoginRole(result)]) && info.role == Some(LoginRole(result))
    ensures info.id.Some? && info.id == info.userId && info.id.value != 0
    ensures info.id.value == (if result.user.Some? then IntOr(result.user.value.id, 1) else 1)
    ensures info.username.Some? && info.username == info.userName
    ensures result.user.Some? && result.user.value.username.Some? && result.user.value.username.value != "" ==>
      info.username == result.user.value.username
    ensures (result.user.None? || result.user.value.username.None? || result.user.value.username.value == "") ==>
      info.username == Some(username)
    ensures result.user.Some? && result.user.value.email.Some? ==> info.email == result.user.value.email
    ensures (result.user.None? || result.user.value.email.None?) ==> info.email == Some("")
    ensures info.buttons == Some([]) && info.avatar == Some("") && info.createdAt == Some(now)
  {
    var u := result.user;
    var id := IntOr(if u.Some? then u.value.id else None, 1);
    var name := StringOr(if u.Some? then u.value.username else None, username);
    var role := LoginRole(result);
    UserInfo(
      id := Some(id),
      userId := Some(id),
      username := Some(name),
      userName := Some(name),
      email := Some(StringOr(if u.Some? then u.value.email else None, "")),
      role := Some(role),
      roles := Some([role]),
      buttons := Some([]),
      avatar := Some(""),
      createdAt := Some(now))
  }

  /** The store after a successful login: logged in, tokens set, user information replaced. */
  function LoggedIn(s: UserState, result: LoginResult, username: string, now: string): UserState {
    WithToken(s.(isLogin := true), result.accessToken, result.refreshToken).(info := LoginInfo(result, username, now))
  }

  /**
   * After a successful login the user is logged in and holds exactly one,
   * non-empty role; nothing but the login flag, the tokens and the user
   * information changes.
   */
  lemma LoginGrantsOneRole(s: UserState, result: LoginResult, username: string, now: string)
    ensures var r := LoggedIn(s, result, username, now);
      r.isLogin && r.info.roles.Some? && |r.info.roles.value| == 1 && r.info.roles.value[0] != ""
    ensures var r := LoggedIn(s, result, username, now);
      r.(isLogin := s.isLogin, accessToken := s.accessToken, refreshToken := s.refreshToken, info := s.info) == s
  {
  }

  /** The worktab store's list of opened tabs. */
  class WorktabStore {
    var openedTabs: seq<string>

    constructor ()
      ensures openedTabs == []
    {
      openedTabs := [];
    }
  }

  class UserStore {
    var language: Language
    var isLogin: bool
    var isLock: bool
    var lockPassword: string
    var info: UserInfo
    var searchHistory: seq<RouteRecord>
    var accessToken: string
    var refreshToken: string
    /** The worktab store that `logOut` clears. */
    const worktabs: WorktabStore

    function Model(): UserState
      reads this, worktabs
    {
      UserState(language, isLogin, isLock, lockPassword, info, searchHistory, accessToken, refreshToken, worktabs.openedTabs)
    }

    constructor (worktabs: WorktabStore)
      ensures this.worktabs == worktabs
      ensures Model() == Initial.(openedTabs := worktabs.openedTabs)
    {
      language := Zh;
      isLogin := false;
      isLock := false;
      lockPassword := "";
      info := NoInfo;
      searchHistory := [];
      accessToken := "";
      refreshToken := "";
      this.worktabs := worktabs;
    }

    method SetUserInfo(newInfo: UserInfo)
      modifies this
      ensures Model() == old(Model()).(info := newInfo)
    {
      info := newInfo;
    }

    method SetLoginStatus(status: bool)
      modifies this
      ensures Model() == old(Model()).(isLogin := status)
    {
      isLogin := status;
    }

    /** `setLanguage`; the page-title refresh it also triggers is not modelled. */
    method SetLanguage(lang: Language)
      modifies this
      ensures Model() == old(Model()).(language := lang)
    {
      language := lang;
    }

    method SetSearchHistory(list: seq<RouteRecord>)
      modifies this
      ensures Model() == old(Model()).(searchHistory := list)
    {
      searchHistory := list;
    }

    method SetLockStatus(status: bool)
      modifies this
      ensures Model() == old(Model()).(isLock := status)
    {
      isLock := status;
    }

    method SetLockPassword(password: string)
      modifies this
      ensures Model() == old(Model()).(lockPassword := password)
    {
      lockPassword := password;
    }

    method SetToken(newAccessToken: string, newRefreshToken: Option<string>)
      modifies this
      ensures Model() == WithToken(old(Model()), newAccessToken, newRefreshToken)
    {
      accessToken := newAccessToken;
      if newRefreshToken.Some? && newRefreshToken.value != "" {
        refreshToken := newRefreshToken.value;
      }
    }

    /**
     * `vmqLogin`: `response` is what the login request produced, `None` when
     * it failed; a failure is passed on and changes nothing.
     */
    method VmqLogin(username: string, response: Option<LoginResult>, now: string) returns (ok: bool)
      modifies this
      ensures ok == response.Some?
      ensures Model() == if ok then LoggedIn(old(Model()), response.value, username, now) else old(Model())
    {
      if response.None? {
        return false;
      }
      var result := response.value;
      SetLoginStatus(true);
      SetToken(result.accessToken, result.refreshToken);
      SetUserInfo(LoginInfo(result, username, now));
      ok := true;
    }

    method LogOut()
      modifies this, worktabs
      ensures Model() == LoggedOut(old(Model()))
    {
      info := NoInfo;
      isLogin := false;
      isLock := false;
      lockPassword := "";
      accessToken := "";
      refreshToken := "";
      worktabs.openedTabs := [];
    }
  }
}
