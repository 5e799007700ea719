/**
 * The session manager `Auth`: the in-memory token and profile, their copies
 * in `localStorage` (durable) and `sessionStorage` (tab), the logout-warning
 * and expiry timers, and the login, logout and validation calls that drive
 * them. Server replies are parameters; requests the manager issues are
 * recorded in `requests`, redirects in `navigation`.
 */
module Session {
  import opened Base
  import opened Json
  import opened Config
  import opened WebStorage
  import opened UserCodec
  import opened Api
  import opened Permissions

  datatype TimerKind = LogoutWarning | SessionExpiry

  /** An armed `setTimeout`: what it will run and after how many milliseconds. */
  datatype Timer = Timer(kind: TimerKind, delay: int)

  const WarningTimer := Timer(LogoutWarning, WARNING_DELAY)
  const ExpiryTimer := Timer(SessionExpiry, SESSION_TIMEOUT)

  /** The logout warning is raised before the session expires, and both
      timers lie in the future. */
  lemma WarningPrecedesExpiry()
    ensures 0 < WarningTimer.delay < ExpiryTimer.delay
  {
  }

  /** What reading a store at page load makes of the session it holds:
      adopt it, discard it as unreadable, or keep the current state. */
  datatype Restore = Adopt(token: string, user: User) | Corrupt | Keep

  /** What the server said to `validateSession`'s probe. */
  datatype Reply = Replied(body: Json) | CallFailed

  /** What the login call came back with: a reply whose `success` is truthy
      (with its token and profile), any other reply, or an exception. */
  datatype LoginReply = Granted(token: string, user: User) | Refused | LoginCallFailed

  datatype Verdict = Confirmed | Rejected | Inconclusive

  /** `validateSession`'s reading of the reply: `success` confirms,
      `code === 'AUTH_REQUIRED'` rejects, anything else (including an
      exception) settles nothing. */
  function ProbeVerdict(probe: Reply): Verdict {
    match probe
    case CallFailed => Inconclusive
    case Replied(body) =>
      if Truthy(Get(body, "success")) then Confirmed
      else if Get(body, "code") == Some(JStr("AUTH_REQUIRED")) then Rejected
      else Inconclusive
  }

  /** The two entries `saveSession` writes into the store it picks. */
  function WithSession(items: map<string, string>, token: string, user: User): map<string, string> {
    items[SESSION_TOKEN_KEY := token][USER_INFO_KEY := EncodeUser(user)]
  }

  /** localStorage after `saveSession`: written only when remembering. */
  function DurableAfterSave(items: map<string, string>, token: string, user: User, rememberMe: bool): map<string, string> {
    if rememberMe then WithSession(items, token, user)[REMEMBER_ME_KEY := "true"] else items
  }

  /** sessionStorage after `saveSession`: written only when not remembering. */
  function TabAfterSave(items: map<string, string>, token: string, user: User, rememberMe: bool): map<string, string> {
    if rememberMe then items else WithSession(items, token, user)
  }

  /** localStorage after `clearSession`. */
  function DurableAfterClear(items: map<string, string>): map<string, string> {
    items - {SESSION_TOKEN_KEY} - {USER_INFO_KEY} - {REMEMBER_ME_KEY}
  }

  /** sessionStorage after `clearSession`. */
  function TabAfterClear(items: map<string, string>): map<string, string> {
    items - {SESSION_TOKEN_KEY} - {USER_INFO_KEY}
  }

  /** `saveSession` touches exactly the session keys: every other entry of
      either store, such as the remembered username, is kept. */
  lemma SaveKeepsOtherEntries(durable: map<string, string>, tab: map<string, string>, token: string, user: User,
                              rememberMe: bool, key: string)
    requires key != SESSION_TOKEN_KEY && key != USER_INFO_KEY && key != REMEMBER_ME_KEY
    ensures key in DurableAfterSave(durable, token, user, rememberMe) <==> key in durable
    ensures key in durable ==> DurableAfterSave(durable, token, user, rememberMe)[key] == durable[key]
    ensures key in TabAfterSave(tab, token, user, rememberMe) <==> key in tab
    ensures key in tab ==> TabAfterSave(tab, token, user, rememberMe)[key] == tab[key]
  {
  }

  /** How `loadSession` reads one store: a non-empty token and a non-empty
      profile are adopted when the profile parses and discarded when it does
      not; anything less leaves the state as it is. */
  function RestoreFrom(items: map<string, string>): Restore {
    if SESSION_TOKEN_KEY in items && items[SESSION_TOKEN_KEY] != ""
       && USER_INFO_KEY in items && items[USER_INFO_KEY] != "" then
      match DecodeUser(items[USER_INFO_KEY])
      case Some(u) => Adopt(items[SESSION_TOKEN_KEY], u)
      case None => Corrupt
    else Keep
  }

  /** The corrected restore: localStorage first, and sessionStorage when
      localStorage holds no session. */
  function RestoreFromEither(durable: map<string, string>, tab: map<string, string>): Restore {
    if RestoreFrom(durable).Keep? then RestoreFrom(tab) else RestoreFrom(durable)
  }

  /** A store `saveSession` wrote is read back as the same session. */
  lemma RestoreAfterSave(items: map<string, string>, token: string, user: User)
    requires token != ""
    ensures RestoreFrom(WithSession(items, token, user)) == Adopt(token, user)
    ensures RestoreFrom(WithSession(items, token, user)[REMEMBER_ME_KEY := "true"]) == Adopt(token, user)
  {
    DecodeEncodeUser(user);
    assert EncodeUser(user)[0] == '{';
  }

  /** As written, `loadSession` loses every session saved without "remember
      me": such a session is written to sessionStorage only, and a
      localStorage without a session is read as no session at all. */
  lemma NonRememberedSessionNotRestored(durable: map<string, string>, tab: map<string, string>, token: string, user: User)
    requires SESSION_TOKEN_KEY !in durable
    ensures RestoreFrom(DurableAfterSave(durable, token, user, false)) == Keep
    ensures token != "" ==> RestoreFrom(TabAfterSave(tab, token, user, false)) == Adopt(token, user)
  {
    if token != "" {
      RestoreAfterSave(tab, token, user);
    }
  }

  /** With the fallback, a session saved either way survives a page load,
      provided localStorage holds no other session. */
  lemma SavedSessionSurvivesReload(durable: map<string, string>, tab: map<string, string>, token: string, user: User,
                                   rememberMe: bool)
    requires token != ""
    requires !rememberMe ==> SESSION_TOKEN_KEY !in durable
    ensures RestoreFromEither(DurableAfterSave(durable, token, user, rememberMe),
                              TabAfterSave(tab, token, user, rememberMe)) == Adopt(token, user)
  {
    if rememberMe {
      RestoreAfterSave(durable, token, user);
    } else {
      RestoreAfterSave(tab, token, user);
    }
  }

  /** After `clearSession` neither store yields a session, so neither the
      restore as written nor the corrected one brings it back. */
  lemma NothingRestoredAfterClear(durable: map<string, string>, tab: map<string, string>)
    ensures RestoreFrom(DurableAfterClear(durable)) == Keep && RestoreFrom(TabAfterClear(tab)) == Keep
    ensures RestoreFromEither(DurableAfterClear(durable), TabAfterClear(tab)) == Keep
  {
  }

  /** Reads one store as `loadSession` does. */
  method ReadStoredSession(store: Storage) returns (r: Restore)
    ensures r == RestoreFrom(store.items)
  {
    var token := store.GetItem(SESSION_TOKEN_KEY);
    var profile := store.GetItem(USER_INFO_KEY);
    if token.Some? && token.value != "" && profile.Some? && profile.value != "" {
      var user := DecodeUser(profile.value);
      if user.Some? {
        r := Adopt(token.value, user.value);
      } else {
        r := Corrupt;
      }
    } else {
      r := Keep;
    }
  }

  predicate EndsWith(s: string, suffix: string) {
    |suffix| <= |s| && s[|s| - |suffix|..] == suffix
  }

  /** Where `redirectToLogin` leaves the window: sent to the login page
      unless it is already there. */
  function AfterRedirectToLogin(path: string, navigation: Option<string>): Option<string> {
    if EndsWith(path, "index.html") then navigation else Some("index.html")
  }

  class Auth {
    var sessionToken: Option<string>
    var userInfo: Option<User>
    /** Handles of the two session timers, as the last `setTimeout` calls returned them. */
    var autoLogoutWarning: Option<nat>
    var sessionTimeout: Option<nat>
    /** Timers armed and neither fired nor cancelled, by handle. */
    var pending: map<nat, Timer>
    /** The handle the next `setTimeout` returns; handles are positive. */
    var nextHandle: nat
    /** Requests issued through `apiCall`, oldest first. */
    var requests: seq<ApiRequest>
    /** The page the window has been sent to, if any. */
    var navigation: Option<string>
    const durable: Storage
    const tab: Storage
    /** `window.location.pathname`. */
    const path: string

    ghost predicate Valid()
      reads this
    {
      && durable != tab
      && (sessionToken.Some? <==> userInfo.Some?)
      && 0 < nextHandle
      && (autoLogoutWarning.Some? ==> 0 < autoLogoutWarning.value < nextHandle)
      && (sessionTimeout.Some? ==> 0 < sessionTimeout.value < nextHandle)
      && forall h :: h in pending ==>
           || (autoLogoutWarning == Some(h) && pending[h] == WarningTimer)
           || (sessionTimeout == Some(h) && pending[h] == ExpiryTimer)
    }

    /** `isLoggedIn`: a non-empty token and a profile. */
    predicate IsLoggedIn()
      reads this
    {
      HasToken(sessionToken) && userInfo.Some?
    }

    /** Exactly one warning timer and one expiry timer are pending. */
    predicate OnePairArmed()
      reads this
    {
      && autoLogoutWarning.Some? && sessionTimeout.Some?
      && autoLogoutWarning.value != sessionTimeout.value
      && pending == map[autoLogoutWarning.value := WarningTimer, sessionTimeout.value := ExpiryTimer]
    }

    /** No session in memory and no timer pending. */
    predicate SignedOut()
      reads this
    {
      && sessionToken.None? && userInfo.None?
      && autoLogoutWarning.None? && sessionTimeout.None? && pending == map[]
    }

    twostate predicate SessionUnchanged()
      reads this
    {
      && sessionToken == old(sessionToken) && userInfo == old(userInfo)
      && autoLogoutWarning == old(autoLogoutWarning) && sessionTimeout == old(sessionTimeout)
      && pending == old(pending) && nextHandle == old(nextHandle)
    }

    /** `new Auth()`: restore the session stored in localStorage and, when
        that yields one, probe it with `validateSession`. sessionStorage is
        not read, so a session saved without "remember me" is not restored. */
    constructor (durable: Storage, tab: Storage, path: string, probe: Reply)
      requires durable != tab
      modifies durable, tab
      ensures this.durable == durable && this.tab == tab && this.path == path
      ensures Valid()
      ensures navigation.Some? ==> navigation == Some("index.html")
      ensures RestoreFrom(old(durable.items)).Adopt? <==> requests != []
      ensures !RestoreFrom(old(durable.items)).Adopt? ==> SignedOut()
      ensures RestoreFrom(old(durable.items)).Keep? ==> unchanged(durable, tab) && navigation.None?
      ensures match RestoreFrom(old(durable.items))
              case Adopt(t, u) =>
                && requests == [Request("dashboard", "GET", Some(t), None)]
                && (ProbeVerdict(probe) != Rejected ==>
                      && sessionToken == Some(t) && userInfo == Some(u)
                      && unchanged(durable, tab) && navigation.None?)
                && (ProbeVerdict(probe) == Confirmed ==> OnePairArmed())
                && (ProbeVerdict(probe) == Inconclusive ==> pending == map[])
                && (ProbeVerdict(probe) == Rejected ==>
                      && SignedOut()
                      && durable.items == DurableAfterClear(old(durable.items))
                      && tab.items == TabAfterClear(old(tab.items))
                      && navigation == AfterRedirectToLogin(path, None))
              case Corrupt =>
                && requests == [] && navigation.None?
                && durable.items == DurableAfterClear(old(durable.items))
                && tab.items == TabAfterClear(old(tab.items))
              case Keep => true
    {
      sessionToken := None;
      userInfo := None;
      autoLogoutWarning := None;
      sessionTimeout := None;
      pending := map[];
      nextHandle := 1;
      requests := [];
      navigation := None;
      this.durable := durable;
      this.tab := tab;
      this.path := path;
      new;
      LoadSession();
      if IsLoggedIn() {
        var _ := ValidateSession(probe);
      }
    }

    /** The corrected start-up: as `new Auth()`, but restoring through
        LoadSessionWithFallback, so that a session saved in sessionStorage
        is found as well. */
    constructor WithFallback(durable: Storage, tab: Storage, path: string, probe: Reply)
      requires durable != tab
      modifies durable, tab
      ensures this.durable == durable && this.tab == tab && this.path == path
      ensures Valid()
      ensures navigation.Some? ==> navigation == Some("index.html")
      ensures RestoreFromEither(old(durable.items), old(tab.items)).Adopt? <==> requests != []
      ensures !RestoreFromEither(old(durable.items), old(tab.items)).Adopt? ==> SignedOut()
      ensures RestoreFromEither(old(durable.items), old(tab.items)).Keep? ==> unchanged(durable, tab) && navigation.None?
      ensures match RestoreFromEither(old(durable.items), old(tab.items))
              case Adopt(t, u) =>
                && requests == [Request("dashboard", "GET", Some(t), None)]
                && (ProbeVerdict(probe) != Rejected ==>
                      && sessionToken == Some(t) && userInfo == Some(u)
                      && unchanged(durable, tab) && navigation.None?)
                && (ProbeVerdict(probe) == Confirmed ==> OnePairArmed())
                && (ProbeVerdict(probe) == Inconclusive ==> pending == map[])
                && (ProbeVerdict(probe) == Rejected ==>
                      && SignedOut()
                      && durable.items == DurableAfterClear(old(durable.items))
                      && tab.items == TabAfterClear(old(tab.items))
                      && navigation == AfterRedirectToLogin(path, None))
              case Corrupt =>
                && requests == [] && navigation.None?
                && durable.items == DurableAfterClear(old(durable.items))
                && tab.items == TabAfterClear(old(tab.items))
              case Keep => true
    {
      sessionToken := None;
      userInfo := None;
      autoLogoutWarning := None;
      sessionTimeout := None;
      pending := map[];
      nextHandle := 1;
      requests := [];
      navigation := None;
      this.durable := durable;
      this.tab := tab;
      this.path := path;
      new;
      LoadSessionWithFallback();
      if IsLoggedIn() {
        var _ := ValidateSession(probe);
      }
    }

    /** `loadSession`: a session stored in localStorage is adopted, an
        unreadable one is cleared from both stores, and no stored session
        leaves the state alone. */
    method LoadSession()
      requires Valid()
      modifies this, durable, tab
      ensures Valid()
      ensures requests == old(requests) && navigation == old(navigation)
      ensures match RestoreFrom(old(durable.items))
              case Adopt(t, u) =>
                && sessionToken == Some(t) && userInfo == Some(u)
                && pending == old(pending) && unchanged(durable, tab)
              case Corrupt =>
                && SignedOut()
                && durable.items == DurableAfterClear(old(durable.items))
                && tab.items == TabAfterClear(old(tab.items))
              case Keep =>
                SessionUnchanged() && unchanged(durable, tab)
    {
      var r := ReadStoredSession(durable);
      Restore(r);
    }

    /** The corrected `loadSession`: as LoadSession, falling back to
        sessionStorage when localStorage holds no session. */
    method LoadSessionWithFallback()
      requires Valid()
      modifies this, durable, tab
      ensures Valid()
      ensures requests == old(requests) && navigation == old(navigation)
      ensures match RestoreFromEither(old(durable.items), old(tab.items))
              case Adopt(t, u) =>
                && sessionToken == Some(t) && userInfo == Some(u)
                && pending == old(pending) && unchanged(durable, tab)
              case Corrupt =>
                && SignedOut()
                && durable.items == DurableAfterClear(old(durable.items))
                && tab.items == TabAfterClear(old(tab.items))
              case Keep =>
                SessionUnchanged() && unchanged(durable, tab)
    {
      var r := ReadStoredSession(durable);
      if r.Keep? {
        r := ReadStoredSession(tab);
      }
      Restore(r);
    }

    /** Acts on what a store held: adopt the session, or clear an unreadable
        one, or do nothing. */
    method Restore(r: Restore)
      requires Valid()
      modifies this, durable, tab
      ensures Valid()
      ensures requests == old(requests) && navigation == old(navigation)
      ensures match r
              case Adopt(t, u) =>
                && sessionToken == Some(t) && userInfo == Some(u)
                && pending == old(pending) && unchanged(durable, tab)
              case Corrupt =>
                && SignedOut()
                && durable.items == DurableAfterClear(old(durable.items))
                && tab.items == TabAfterClear(old(tab.items))
              case Keep =>
                SessionUnchanged() && unchanged(durable, tab)
    {
      match r {
        case Adopt(t, u) =>
          sessionToken := Some(t);
          userInfo := Some(u);
        case Corrupt =>
          ClearSession();
        case Keep =>
      }
    }

    /** `saveSession`: hold the session, write it to the store the
        "remember me" choice selects, and arm a fresh timer pair. */
    method SaveSession(token: string, user: User, rememberMe: bool)
      requires Valid()
      modifies this, durable, tab
      ensures Valid() && OnePairArmed()
      ensures sessionToken == Some(token) && userInfo == Some(user)
      ensures durable.items == DurableAfterSave(old(durable.items), token, user, rememberMe)
      ensures tab.items == TabAfterSave(old(tab.items), token, user, rememberMe)
      ensures requests == old(requests) && navigation == old(navigation)
    {
      sessionToken := Some(token);
      userInfo := Some(user);
      if rememberMe {
        durable.SetItem(SESSION_TOKEN_KEY, token);
        durable.SetItem(USER_INFO_KEY, EncodeUser(user));
        durable.SetItem(REMEMBER_ME_KEY, "true");
      } else {
        tab.SetItem(SESSION_TOKEN_KEY, token);
        tab.SetItem(USER_INFO_KEY, EncodeUser(user));
      }
      SetupSessionTimeout();
    }

    /** `clearSession`: forget the session, delete its entries from both
        stores and cancel both timers. */
    method ClearSession()
      requires Valid()
      modifies this, durable, tab
      ensures Valid() && SignedOut() && !IsLoggedIn()
      ensures durable.items == DurableAfterClear(old(durable.items))
      ensures tab.items == TabAfterClear(old(tab.items))
      ensures requests == old(requests) && navigation == old(navigation) && nextHandle == old(nextHandle)
    {
      sessionToken := None;
      userInfo := None;
      durable.RemoveItem(SESSION_TOKEN_KEY);
      durable.RemoveItem(USER_INFO_KEY);
      durable.RemoveItem(REMEMBER_ME_KEY);
      tab.RemoveItem(SESSION_TOKEN_KEY);
      tab.RemoveItem(USER_INFO_KEY);
      CancelTimers();
      sessionTimeout := None;
      autoLogoutWarning := None;
    }

    /** `clearTimeout` on each handle held: no timer is left pending. */
    method CancelTimers()
      requires Valid()
      modifies this
      ensures pending == map[]
      ensures sessionToken == old(sessionToken) && userInfo == old(userInfo)
      ensures autoLogoutWarning == old(autoLogoutWarning) && sessionTimeout == old(sessionTimeout)
      ensures nextHandle == old(nextHandle) && requests == old(requests) && navigation == old(navigation)
    {
      if sessionTimeout.Some? {
        pending := pending - {sessionTimeout.value};
      }
      if autoLogoutWarning.Some? {
        pending := pending - {autoLogoutWarning.value};
      }
      assert pending.Keys == {};
    }

    /** `setupSessionTimeout`: cancel the pending pair and arm a new one; none
        of the timers pending before is pending after. */
    method SetupSessionTimeout()
      requires Valid()
      modifies this
      ensures Valid() && OnePairArmed()
      ensures forall h :: h in old(pending) ==> h !in pending
      ensures sessionToken == old(sessionToken) && userInfo == old(userInfo)
      ensures requests == old(requests) && navigation == old(navigation)
    {
      CancelTimers();
      autoLogoutWarning := Some(nextHandle);
      pending := pending[nextHandle := WarningTimer];
      sessionTimeout := Some(nextHandle + 1);
      pending := pending[nextHandle + 1 := ExpiryTimer];
      nextHandle := nextHandle + 2;
    }

    /** The warning timer fires (`showLogoutWarning`); `extend` is the answer
        to the confirm prompt, and a yes runs `extendSession`. */
    method WarningElapsed(extend: bool)
      requires Valid() && autoLogoutWarning.Some? && autoLogoutWarning.value in pending
      modifies this
      ensures Valid()
      ensures sessionToken == old(sessionToken) && userInfo == old(userInfo)
      ensures requests == old(requests) && navigation == old(navigation)
      ensures extend ==> OnePairArmed()
      ensures !extend ==> pending == old(pending) - {old(autoLogoutWarning).value}
    {
      pending := pending - {autoLogoutWarning.value};
      if extend {
        SetupSessionTimeout();
      }
    }

    /** The expiry timer fires (`autoLogout`): log out, telling the server
        when a token is held, and go to the login page. */
    method SessionExpired()
      requires Valid() && sessionTimeout.Some? && sessionTimeout.value in pending
      modifies this, durable, tab
      ensures Valid() && SignedOut()
      ensures durable.items == DurableAfterClear(old(durable.items))
      ensures tab.items == TabAfterClear(old(tab.items))
      ensures requests == old(requests)
                + (if HasToken(old(sessionToken)) then [Request("logout", "POST", old(sessionToken), None)] else [])
      ensures navigation == AfterRedirectToLogin(path, old(navigation))
    {
      pending := pending - {sessionTimeout.value};
      Logout();
    }

    /** The body construction of `apiCall`; sending is recorded in `requests`. */
    method ApiCall(endpoint: string, verb: string, data: Option<seq<(string, Value)>>)
      requires Valid()
      modifies this
      ensures Valid()
      ensures requests == old(requests) + [Request(endpoint, verb, sessionToken, data)]
      ensures SessionUnchanged() && navigation == old(navigation)
    {
      var body := BuildRequestBody(verb, sessionToken, data);
      requests := requests + [ApiRequest(endpoint, body)];
    }

    /** `validateSession`: without a token, false and no call; otherwise probe
        the dashboard and act on the verdict. */
    method ValidateSession(probe: Reply) returns (valid: bool)
      requires Valid()
      modifies this, durable, tab
      ensures Valid()
      ensures valid <==> HasToken(old(sessionToken)) && ProbeVerdict(probe) == Confirmed
      ensures !HasToken(old(sessionToken)) ==>
                SessionUnchanged() && requests == old(requests) && navigation == old(navigation) && unchanged(durable, tab)
      ensures HasToken(old(sessionToken)) ==>
                requests == old(requests) + [Request("dashboard", "GET", old(sessionToken), None)]
      ensures HasToken(old(sessionToken)) && ProbeVerdict(probe) == Confirmed ==>
                && sessionToken == old(sessionToken) && userInfo == old(userInfo) && OnePairArmed()
                && navigation == old(navigation) && unchanged(durable, tab)
      ensures HasToken(old(sessionToken)) && ProbeVerdict(probe) == Rejected ==>
                && SignedOut()
                && durable.items == DurableAfterClear(old(durable.items))
                && tab.items == TabAfterClear(old(tab.items))
                && navigation == AfterRedirectToLogin(path, old(navigation))
      ensures HasToken(old(sessionToken)) && ProbeVerdict(probe) == Inconclusive ==>
                SessionUnchanged() && navigation == old(navigation) && unchanged(durable, tab)
    {
      if !HasToken(sessionToken) {
        return false;
      }
      ApiCall("dashboard", "GET", None);
      match ProbeVerdict(probe)
      case Confirmed =>
        SetupSessionTimeout();
        valid := true;
      case Rejected =>
        ClearSession();
        RedirectToLogin();
        valid := false;
      case Inconclusive =>
        valid := false;
    }

    /** `login`: post the credentials; a granted login is saved and the window
        sent to the dashboard, anything else leaves the session as it was. */
    method Login(username: string, password: string, rememberMe: bool, reply: LoginReply) returns (ok: bool)
      requires Valid()
      modifies this, durable, tab
      ensures Valid()
      ensures ok <==> reply.Granted?
      ensures requests == old(requests)
                + [Request("login", "POST", old(sessionToken), Some([("username", Text(username)), ("password", Text(password))]))]
      ensures reply.Granted? ==>
                && sessionToken == Some(reply.token) && userInfo == Some(reply.user) && OnePairArmed()
                && durable.items == DurableAfterSave(old(durable.items), reply.token, reply.user, rememberMe)
                && tab.items == TabAfterSave(old(tab.items), reply.token, reply.user, rememberMe)
                && navigation == Some("dashboard.html")
      ensures !reply.Granted? ==> SessionUnchanged() && navigation == old(navigation) && unchanged(durable, tab)
    {
      ApiCall("login", "POST", Some([("username", Text(username)), ("password", Text(password))]));
      if reply.Granted? {
        SaveSession(reply.token, reply.user, rememberMe);
        RedirectToDashboard();
        ok := true;
      } else {
        ok := false;
      }
    }

    /** `logout`: tell the server when a token is held, then, whatever the
        call does, clear the session and go to the login page. */
    method Logout()
      requires Valid()
      modifies this, durable, tab
      ensures Valid() && SignedOut() && !IsLoggedIn()
      ensures durable.items == DurableAfterClear(old(durable.items))
      ensures tab.items == TabAfterClear(old(tab.items))
      ensures requests == old(requests)
                + (if HasToken(old(sessionToken)) then [Request("logout", "POST", old(sessionToken), None)] else [])
      ensures navigation == AfterRedirectToLogin(path, old(navigation))
    {
      if HasToken(sessionToken) {
        ApiCall("logout", "POST", None);
      }
      ClearSession();
      RedirectToLogin();
    }

    /** `redirectToLogin`. */
    method RedirectToLogin()
      modifies this
      ensures navigation == AfterRedirectToLogin(path, old(navigation))
      ensures SessionUnchanged() && requests == old(requests)
    {
      if !EndsWith(path, "index.html") {
        navigation := Some("index.html");
      }
    }

    /** `redirectToDashboard`. */
    method RedirectToDashboard()
      modifies this
      ensures navigation == Some("dashboard.html")
      ensures SessionUnchanged() && requests == old(requests)
    {
      navigation := Some("dashboard.html");
    }

    /** `requireAuth`: true when logged in; otherwise off to the login page. */
    method RequireAuth() returns (ok: bool)
      modifies this
      ensures ok <==> old(IsLoggedIn())
      ensures navigation == if ok then old(navigation) else AfterRedirectToLogin(path, old(navigation))
      ensures SessionUnchanged() && requests == old(requests)
    {
      if !IsLoggedIn() {
        RedirectToLogin();
        return false;
      }
      return true;
    }

    /** `requirePermission`: logged in and granted the permission. */
    method RequirePermission(permission: string) returns (ok: bool)
      modifies this
      ensures ok <==> old(IsLoggedIn()) && HasPermission(old(userInfo), permission)
      ensures navigation == if old(IsLoggedIn()) then old(navigation) else AfterRedirectToLogin(path, old(navigation))
      ensures SessionUnchanged() && requests == old(requests)
    {
      ok := RequireAuth();
      if !ok {
        return false;
      }
      ok := HasPermission(userInfo, permission);
    }
  }

  /** As written, a login without "remember me" does not survive the move to
      the dashboard: the login page's `Auth` is signed in, but the `Auth` of
      the page loaded next finds no session, and `requireAuth` sends the user
      back to the login page. */
  method NonRememberedLoginLostOnReload(username: string, password: string, token: string, user: User, probe: Reply)
    returns (loggedIn: bool, admitted: bool, sentTo: Option<string>)
    requires token != ""
    ensures loggedIn && !admitted && sentTo == Some("index.html")
  {
    var durable := new Storage(map[]);
    var tab := new Storage(map[]);
    var before := new Auth(durable, tab, "index.html", probe);
    var _ := before.Login(username, password, false, Granted(token, user));
    loggedIn := before.IsLoggedIn();
    var after := new Auth(durable, tab, "dashboard.html", probe);
    assert !EndsWith("dashboard.html", "index.html") by {
      assert "dashboard.html"[4] != "index.html"[0];
    }
    admitted := after.RequireAuth();
    sentTo := after.navigation;
  }

  /** With the sessionStorage fallback, the same login is still in force on
      the page loaded next, unless the server rejects the token. */
  method NonRememberedLoginKeptWithFallback(username: string, password: string, token: string, user: User, probe: Reply)
    returns (loggedIn: bool, admitted: bool)
    requires token != "" && ProbeVerdict(probe) != Rejected
    ensures loggedIn && admitted
  {
    var durable := new Storage(map[]);
    var tab := new Storage(map[]);
    var before := new Auth.WithFallback(durable, tab, "index.html", probe);
    var _ := before.Login(username, password, false, Granted(token, user));
    loggedIn := before.IsLoggedIn();
    assert durable.items == map[] && tab.items == WithSession(map[], token, user);
    RestoreAfterSave(map[], token, user);
    assert RestoreFromEither(durable.items, tab.items) == Adopt(token, user);
    var after := new Auth.WithFallback(durable, tab, "dashboard.html", probe);
    admitted := after.RequireAuth();
  }
}
