/**
 * The login page controller: input validation, the failed-attempt counter
 * and its lockout, the re-entrancy flag around a login in flight, and the
 * remembered username in localStorage.
 */
module Login {
  import opened Base
  import opened JsText
  import opened Config
  import opened WebStorage
  import opened UserCodec
  import opened Api
  import opened Session

  datatype Field = UsernameField | PasswordField
  datatype Problem = Missing | TooShort

  /** A message `showFieldError` puts under a field. */
  datatype FieldError = FieldError(field: Field, problem: Problem)

  /** What `validateLoginInput` accepts: a username of at least 3 and a
      password of at least PASSWORD_MIN_LENGTH UTF-16 units. */
  predicate CredentialsAcceptable(username: string, password: string) {
    && username != "" && JsLength(username) >= 3
    && password != "" && JsLength(password) >= PASSWORD_MIN_LENGTH
  }

  /** `validateLoginInput`: checks each field, reporting at most one problem
      per field, and lowers the flag on each problem found. */
  method ValidateLoginInput(username: string, password: string) returns (isValid: bool, errors: seq<FieldError>)
    ensures isValid <==> CredentialsAcceptable(username, password)
    ensures isValid <==> errors == []
    ensures FieldError(UsernameField, Missing) in errors <==> username == ""
    ensures FieldError(UsernameField, TooShort) in errors <==> username != "" && JsLength(username) < 3
    ensures FieldError(PasswordField, Missing) in errors <==> password == ""
    ensures FieldError(PasswordField, TooShort) in errors <==> password != "" && JsLength(password) < PASSWORD_MIN_LENGTH
    ensures forall i, j :: 0 <= i < j < |errors| ==> errors[i].field != errors[j].field
  {
    isValid := true;
    errors := [];
    if username == "" {
      errors := errors + [FieldError(UsernameField, Missing)];
      isValid := false;
    } else if JsLength(username) < 3 {
      errors := errors + [FieldError(UsernameField, TooShort)];
      isValid := false;
    }
    if password == "" {
      errors := errors + [FieldError(PasswordField, Missing)];
      isValid := false;
    } else if JsLength(password) < PASSWORD_MIN_LENGTH {
      errors := errors + [FieldError(PasswordField, TooShort)];
      isValid := false;
    }
  }

  /** The username `loadRememberedLogin` fills in: the saved one, when the
      remember-me flag is exactly "true" and the saved username is non-empty. */
  function PrefillUsername(items: map<string, string>): Option<string> {
    if REMEMBER_ME_KEY in items && items[REMEMBER_ME_KEY] == "true"
       && USERNAME_KEY in items && items[USERNAME_KEY] != "" then
      Some(items[USERNAME_KEY])
    else None
  }

  /** Logging out (or any `clearSession`) drops the remember-me flag, so the
      next visit fills in nothing. */
  lemma NoPrefillAfterClear(items: map<string, string>)
    ensures PrefillUsername(DurableAfterClear(items)) == None
  {
  }

  /** The durable store right after a login, read as `loadRememberedLogin`
      reads it: the name used when "remember me" was ticked, nothing
      otherwise (a login without it removes the saved username). Whether a
      later visit ever reaches that read is another matter: see
      `RememberedNameNotPrefilled`. */
  lemma PrefillAfterLogin(items: map<string, string>, reply: LoginReply, a: Attempt)
    requires reply.Granted?
    ensures PrefillUsername(DurableAfterLogin(items, reply, a))
         == if a.rememberMe && a.username != "" then Some(a.username) else None
  {
  }

  /** The enabled state of the form: its input fields and its login button. */
  datatype Controls = Controls(inputsDisabled: bool, buttonDisabled: bool)

  /** A submit can still be raised: by clicking the button, or by Enter in a field. */
  predicate CanSubmit(c: Controls) {
    !c.inputsDisabled || !c.buttonDisabled
  }

  /** The corrected end of `handleLogin`: the button is left disabled while
      the form is locked, so a locked form cannot be submitted. */
  function ControlsAfterLogin(locked: bool): (c: Controls)
    ensures CanSubmit(c) <==> !locked
    ensures !locked ==> !c.inputsDisabled && !c.buttonDisabled
  {
    Controls(locked, locked)
  }

  /** The credentials of a login awaiting its reply. */
  datatype Attempt = Attempt(username: string, password: string, rememberMe: bool)

  class LoginPage {
    const auth: Auth
    /** `loginAttempts`: failed logins since the last success or unlock. */
    var loginAttempts: nat
    /** `isLoggingIn`. */
    var isLoggingIn: bool
    var controls: Controls
    /** Unlock timers armed by `disableLoginForm` and not yet fired. */
    var unlockTimers: nat
    var inFlight: Option<Attempt>

    /** Between events: a login is in flight exactly when the flag is up, the
        button is enabled whenever no login is in flight, a count at the
        maximum has locked the inputs, and locked inputs have an unlock timer
        pending. */
    ghost predicate Valid()
      reads this, auth
    {
      && auth.Valid()
      && (isLoggingIn <==> inFlight.Some?)
      && (!isLoggingIn ==> !controls.buttonDisabled)
      && (loginAttempts >= MAX_LOGIN_ATTEMPTS ==> controls.inputsDisabled)
      && (controls.inputsDisabled ==> unlockTimers > 0)
    }

    /** The page as loaded: no failures counted, nothing in flight. */
    constructor (auth: Auth)
      requires auth.Valid()
      ensures this.auth == auth && Valid()
      ensures loginAttempts == 0 && !isLoggingIn && controls == Controls(false, false) && unlockTimers == 0
    {
      this.auth := auth;
      loginAttempts := 0;
      isLoggingIn := false;
      controls := Controls(false, false);
      unlockTimers := 0;
      inFlight := None;
    }

    /** `loadRememberedLogin`. */
    method LoadRememberedLogin() returns (prefill: Option<string>)
      ensures prefill == PrefillUsername(auth.durable.items)
      ensures prefill.Some? <==>
                && auth.durable.GetItem(REMEMBER_ME_KEY) == Some("true")
                && USERNAME_KEY in auth.durable.items && auth.durable.items[USERNAME_KEY] != ""
      ensures prefill.Some? ==> auth.durable.GetItem(USERNAME_KEY) == prefill
    {
      var remembered := auth.durable.GetItem(REMEMBER_ME_KEY);
      prefill := None;
      if remembered == Some("true") {
        var saved := auth.durable.GetItem(USERNAME_KEY);
        if saved.Some? && saved.value != "" {
          prefill := saved;
        }
      }
    }

    /** `initLoginPage`: a logged-in visitor goes straight to the dashboard;
        anyone else gets the remembered username filled in, and the page
        sends the `init` probe of `checkSystemInit`, whose reply is only
        logged. */
    method Open() returns (prefill: Option<string>)
      requires Valid()
      modifies auth
      ensures Valid()
      ensures auth.SessionUnchanged()
      ensures old(auth.IsLoggedIn()) ==>
                && prefill.None? && auth.navigation == Some("dashboard.html")
                && auth.requests == old(auth.requests)
      ensures !old(auth.IsLoggedIn()) ==>
                && prefill == PrefillUsername(auth.durable.items)
                && auth.requests == old(auth.requests) + [Request("init", "GET", old(auth.sessionToken), None)]
                && auth.navigation == old(auth.navigation)
    {
      if auth.IsLoggedIn() {
        auth.RedirectToDashboard();
        return None;
      }
      prefill := LoadRememberedLogin();
      auth.ApiCall("init", "GET", None);
    }

    /** The submit handler up to the login call: ignored while a login is in
        flight; otherwise the trimmed username and the untrimmed password are
        validated, and valid credentials start a login with the button
        disabled. A submit can only be raised while some control is enabled;
        the inputs keep whatever state they had. */
    method Submit(rawUsername: string, password: string, rememberMe: bool) returns (errors: seq<FieldError>)
      requires Valid() && CanSubmit(controls)
      modifies this
      ensures Valid()
      ensures old(isLoggingIn) ==> errors == [] && unchanged(this)
      ensures !old(isLoggingIn) ==> (errors == [] <==> CredentialsAcceptable(Trim(rawUsername), password))
      ensures !old(isLoggingIn) && errors != [] ==> unchanged(this)
      ensures !old(isLoggingIn) && errors == [] ==>
                && isLoggingIn && inFlight == Some(Attempt(Trim(rawUsername), password, rememberMe))
                && loginAttempts == old(loginAttempts) && unlockTimers == old(unlockTimers)
                && controls == Controls(old(controls.inputsDisabled), true)
    {
      if isLoggingIn {
        return [];
      }
      var username := Trim(rawUsername);
      var isValid;
      isValid, errors := ValidateLoginInput(username, password);
      if !isValid {
        return;
      }
      isLoggingIn := true;
      inFlight := Some(Attempt(username, password, rememberMe));
      controls := controls.(buttonDisabled := true);
    }

    /** `disableLoginForm`: every control disabled, one more unlock timer armed. */
    method DisableLoginForm()
      modifies this
      ensures controls == Controls(true, true) && unlockTimers == old(unlockTimers) + 1
      ensures loginAttempts == old(loginAttempts) && isLoggingIn == old(isLoggingIn) && inFlight == old(inFlight)
    {
      controls := Controls(true, true);
      unlockTimers := unlockTimers + 1;
    }

    /** The rest of `handleLogin`, once `auth.login` has answered: a success
        resets the counter and saves or forgets the username; a failure counts,
        and from MAX_LOGIN_ATTEMPTS on it locks the form; on every path the
        `finally` block then enables the button, so the form can be submitted
        again whether or not it is locked. */
    method CompleteLogin(reply: LoginReply) returns (ok: bool)
      requires Valid() && isLoggingIn
      modifies this, auth, auth.durable, auth.tab
      ensures Valid() && !isLoggingIn && inFlight.None?
      ensures ok <==> reply.Granted?
      ensures ok ==> loginAttempts == 0
      ensures !ok ==> loginAttempts == old(loginAttempts) + 1
      ensures var locks := !ok && old(loginAttempts) + 1 >= MAX_LOGIN_ATTEMPTS;
              && controls == Controls(old(controls.inputsDisabled) || locks, false)
              && unlockTimers == old(unlockTimers) + (if locks then 1 else 0)
      ensures CanSubmit(controls)
      ensures var a := old(inFlight).value;
              auth.requests == old(auth.requests)
                + [Request("login", "POST", old(auth.sessionToken),
                           Some([("username", Text(a.username)), ("password", Text(a.password))]))]
      ensures !ok ==> auth.SessionUnchanged() && auth.navigation == old(auth.navigation) && unchanged(auth.durable, auth.tab)
      ensures ok ==> LoggedInAs(reply, old(inFlight).value.rememberMe)
      ensures var a := old(inFlight).value;
              ok ==> && auth.durable.items == DurableAfterLogin(old(auth.durable.items), reply, a)
                     && auth.tab.items == TabAfterSave(old(auth.tab.items), reply.token, reply.user, a.rememberMe)
    {
      ok := LoginAndRemember(inFlight.value, reply);
      if ok {
        loginAttempts := 0;
      } else {
        loginAttempts := loginAttempts + 1;
        if loginAttempts >= MAX_LOGIN_ATTEMPTS {
          DisableLoginForm();
        }
      }
      isLoggingIn := false;
      inFlight := None;
      controls := controls.(buttonDisabled := false);
    }

    /** `auth.login` with the attempt's credentials, then, after a success,
        the username kept or forgotten. */
    method LoginAndRemember(a: Attempt, reply: LoginReply) returns (ok: bool)
      requires auth.Valid()
      modifies auth, auth.durable, auth.tab
      ensures auth.Valid()
      ensures ok <==> reply.Granted?
      ensures auth.requests == old(auth.requests)
                + [Request("login", "POST", old(auth.sessionToken),
                           Some([("username", Text(a.username)), ("password", Text(a.password))]))]
      ensures !ok ==> auth.SessionUnchanged() && auth.navigation == old(auth.navigation) && unchanged(auth.durable, auth.tab)
      ensures ok ==> && LoggedInAs(reply, a.rememberMe)
                     && auth.durable.items == DurableAfterLogin(old(auth.durable.items), reply, a)
                     && auth.tab.items == TabAfterSave(old(auth.tab.items), reply.token, reply.user, a.rememberMe)
    {
      ok := auth.Login(a.username, a.password, a.rememberMe, reply);
      if ok {
        RememberUsername(a.username, a.rememberMe);
      }
    }

    /** The session after a granted login: held in memory, one timer pair
        armed, and the window sent to the dashboard. */
    predicate LoggedInAs(reply: LoginReply, rememberMe: bool)
      reads auth
    {
      && reply.Granted?
      && auth.sessionToken == Some(reply.token) && auth.userInfo == Some(reply.user)
      && auth.OnePairArmed() && auth.navigation == Some("dashboard.html")
    }

    /** After a successful login: keep the username for the next visit when
        remember-me is ticked, forget it otherwise. */
    method RememberUsername(username: string, rememberMe: bool)
      modifies auth.durable
      ensures rememberMe ==> auth.durable.items == old(auth.durable.items)[USERNAME_KEY := username]
      ensures !rememberMe ==> auth.durable.items == old(auth.durable.items) - {USERNAME_KEY}
    {
      if rememberMe {
        auth.durable.SetItem(USERNAME_KEY, username);
      } else {
        auth.durable.RemoveItem(USERNAME_KEY);
      }
    }

    /** An unlock timer fires: every control enabled, the counter reset. */
    method Unlock()
      requires Valid() && unlockTimers > 0
      modifies this
      ensures Valid()
      ensures loginAttempts == 0 && controls == Controls(false, false) && unlockTimers == old(unlockTimers) - 1
      ensures isLoggingIn == old(isLoggingIn) && inFlight == old(inFlight)
    {
      controls := Controls(false, false);
      unlockTimers := unlockTimers - 1;
      loginAttempts := 0;
    }

    /** The remember-me checkbox changes: unchecking forgets the saved username. */
    method RememberMeChanged(checked: bool)
      requires Valid()
      modifies auth.durable
      ensures Valid()
      ensures !checked ==> auth.durable.items == old(auth.durable.items) - {USERNAME_KEY}
      ensures checked ==> unchanged(auth.durable)
    {
      if !checked {
        auth.durable.RemoveItem(USERNAME_KEY);
      }
    }
  }

  /** localStorage after a granted login: the session saved as "remember me"
      selects, then the username kept or forgotten. */
  function DurableAfterLogin(items: map<string, string>, reply: LoginReply, a: Attempt): map<string, string>
    requires reply.Granted?
  {
    var saved := DurableAfterSave(items, reply.token, reply.user, a.rememberMe);
    if a.rememberMe then saved[USERNAME_KEY := a.username] else saved - {USERNAME_KEY}
  }

  /** As written, the lockout does not stop logins: after MAX_LOGIN_ATTEMPTS
      refused logins the inputs are locked but the button is enabled again, so
      one more submit starts another login, and its refusal takes the counter
      past the maximum and arms a second unlock timer. */
  method LockoutBypassed(username: string, password: string)
    returns (attempts: nat, inputsLocked: bool, submittable: bool, timers: nat)
    requires CredentialsAcceptable(Trim(username), password)
    ensures attempts == MAX_LOGIN_ATTEMPTS + 1 && inputsLocked && submittable && timers == 2
  {
    var durable := new Storage(map[]);
    var tab := new Storage(map[]);
    var auth := new Auth(durable, tab, "index.html", CallFailed);
    var page := new LoginPage(auth);
    var i := 0;
    while i < MAX_LOGIN_ATTEMPTS + 1
      invariant 0 <= i <= MAX_LOGIN_ATTEMPTS + 1
      invariant fresh(page) && page.auth == auth && page.Valid() && !page.isLoggingIn
      invariant page.loginAttempts == i && CanSubmit(page.controls)
      invariant page.controls.inputsDisabled <==> i >= MAX_LOGIN_ATTEMPTS
      invariant page.unlockTimers == if i <= MAX_LOGIN_ATTEMPTS - 1 then 0 else i - MAX_LOGIN_ATTEMPTS + 1
    {
      var errors := page.Submit(username, password, false);
      var _ := page.CompleteLogin(Refused);
      i := i + 1;
    }
    attempts := page.loginAttempts;
    inputsLocked := page.controls.inputsDisabled;
    submittable := CanSubmit(page.controls);
    timers := page.unlockTimers;
  }

  /** As written, a remembered login is not filled in on the next visit: the
      durable store holds the session as well, so the next visit restores it
      and `initLoginPage` goes to the dashboard before `loadRememberedLogin`
      runs, and if the server rejects the token, `clearSession` has removed
      the remember-me flag. */
  method RememberedNameNotPrefilled(username: string, password: string, token: string, user: User, probe: Reply)
    returns (prefill: Option<string>)
    requires token != ""
    ensures prefill.None?
  {
    var a := Attempt(username, password, true);
    var durable := new Storage(DurableAfterLogin(map[], Granted(token, user), a));
    var tab := new Storage(map[]);
    RestoreAfterSave(map[], token, user);
    assert durable.items == WithSession(map[], token, user)[REMEMBER_ME_KEY := "true"][USERNAME_KEY := username];
    assert RestoreFrom(durable.items) == Adopt(token, user);
    var auth := new Auth(durable, tab, "index.html", probe);
    var page := new LoginPage(auth);
    NoPrefillAfterClear(DurableAfterLogin(map[], Granted(token, user), a));
    prefill := page.Open();
  }

  /** Nor after the user logs out: the logout's `clearSession` removes the
      remember-me flag with the session, so the login page then loaded fills
      in nothing. */
  method RememberedNameNotPrefilledAfterLogout(username: string, password: string, token: string, user: User,
                                               probe: Reply)
    returns (prefill: Option<string>)
    ensures prefill.None?
  {
    var a := Attempt(username, password, true);
    var durable := new Storage(DurableAfterLogin(map[], Granted(token, user), a));
    var tab := new Storage(map[]);
    var auth := new Auth(durable, tab, "dashboard.html", probe);
    auth.Logout();
    ghost var cleared := durable.items;
    NoPrefillAfterClear(cleared);
    assert RestoreFrom(cleared) == Keep;
    var next := new Auth(durable, tab, "index.html", probe);
    var page := new LoginPage(next);
    prefill := page.Open();
  }

  /** The corrected prefill: the saved username itself records the choice,
      since it is written only by a remembered login and removed by a login
      without "remember me" and by unticking the box. */
  function RememberedUsername(items: map<string, string>): Option<string> {
    if USERNAME_KEY in items && items[USERNAME_KEY] != "" then Some(items[USERNAME_KEY]) else None
  }

  /** With the corrected prefill the username persists across sessions: after
      a remembered login and any later `clearSession` (a logout, an expiry or
      a rejected token), the login page fills in the name used; after a login
      without "remember me" it fills in nothing. */
  lemma RememberedNameSurvivesSignOut(items: map<string, string>, reply: LoginReply, a: Attempt)
    requires reply.Granted?
    ensures RememberedUsername(DurableAfterClear(DurableAfterLogin(items, reply, a)))
         == if a.rememberMe && a.username != "" then Some(a.username) else None
  {
  }
}
