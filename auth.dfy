/**
 * The sign-in callbacks: the allowlist check at sign-in, the token and
 * session merges, and the route guard run on every navigation. The
 * allowlist configuration, read from the environment by the source, is a
 * parameter here.
 */
module Auth {
  import opened Wrappers
  import opened Text
  import opened Allowlist

  // ---------------------------------------------------------------------
  // The route guard
  // ---------------------------------------------------------------------

  /** The signed-in user of a session (`auth.user`). */
  datatype SessionUser = SessionUser(email: Option<string>)

  /** What the guard answers: let through, send to the sign-in page, or redirect. */
  datatype Decision = Allow | RedirectToLogin | RedirectTo(path: string)

  const AccessDeniedPath := "/access-denied"
  const LoginPath := "/login"
  const StreamsPath := "/streams"

  /** The paths the guard protects. */
  predicate IsOnDashboard(pathname: string) {
    StartsWith(pathname, "/streams") || StartsWith(pathname, "/broadcasters") || StartsWith(pathname, "/stream-keys")
  }

  /** A path that differs from `prefix` at an index of both does not start with it. */
  lemma DiffersAt(s: string, prefix: string, i: nat)
    requires i < |prefix| && i < |s| && s[i] != prefix[i]
    ensures !StartsWith(s, prefix)
  {
    if |prefix| <= |s| {
      assert s[..|prefix|][i] == s[i];
    }
  }

  /** The access-denied page is not under any guarded prefix. */
  lemma AccessDeniedIsNotGuarded()
    ensures !IsOnGuardedDashboard(AccessDeniedPath)
  {
    var p := AccessDeniedPath;
    DiffersAt(p, "/streams", 1);
    DiffersAt(p, "/broadcasters", 1);
    DiffersAt(p, "/stream-keys", 1);
    DiffersAt(p, "/audit-logs", 2);
  }

  /**
   * The `authorized` callback. The access-denied page is always open;
   * a protected path needs a session whose e-mail the allowlist still
   * accepts; a signed-in user asking for the sign-in page goes to the streams.
   */
  function Authorized(user: Option<SessionUser>, pathname: string, config: AllowlistConfig): (d: Decision)
    ensures pathname == AccessDeniedPath ==> d == Allow
    ensures d == RedirectToLogin <==> IsOnDashboard(pathname) && user.None?
    ensures d == RedirectTo(AccessDeniedPath) <==>
      IsOnDashboard(pathname) && user.Some? && !CheckAllowlist(user.value.email, config).allowed
    ensures d == RedirectTo(StreamsPath) <==> pathname == LoginPath && user.Some?
    ensures d.RedirectTo? ==> d.path == AccessDeniedPath || d.path == StreamsPath
    ensures !IsOnDashboard(pathname) && pathname != LoginPath ==> d == Allow
  {
    var isLoggedIn := user.Some?;
    if pathname == AccessDeniedPath then AccessDeniedIsNotGuarded(); Allow
    else if IsOnDashboard(pathname) then
      if !isLoggedIn then RedirectToLogin
      else if !CheckAllowlist(user.value.email, config).allowed then RedirectTo(AccessDeniedPath)
      else Allow
    else if isLoggedIn && pathname == LoginPath then RedirectTo(StreamsPath)
    else Allow
  }

  /** The guard covers every path that begins with a protected page: its sub-pages, and bare extensions such as "/streamsx" too (the test is a plain prefix). */
  lemma GuardCoversSubPaths(page: string, rest: string, config: AllowlistConfig)
    requires page in {"/streams", "/broadcasters", "/stream-keys"}
    ensures Authorized(None, page + rest, config) == RedirectToLogin
  {
    assert (page + rest)[..|page|] == page;
  }

  /** A signed-in user whose e-mail the allowlist accepts reaches every protected page. */
  lemma AllowedUserReachesDashboard(email: string, pathname: string, config: AllowlistConfig)
    requires IsOnDashboard(pathname)
    requires CheckAllowlist(Some(email), config).allowed
    ensures Authorized(Some(SessionUser(Some(email))), pathname, config) == Allow
  {
  }

  // ---------------------------------------------------------------------
  // Sign-in
  // ---------------------------------------------------------------------

  datatype SignInResult = SignInAllowed | SignInRedirect(path: string)

  /**
   * The `signIn` callback: for the Google provider the allowlist decides,
   * on the profile's e-mail or else the user's; a denial redirects to the
   * access-denied page. Other providers are let through.
   */
  function SignIn(provider: Option<string>, profileEmail: Option<string>, userEmail: Option<string>,
                  config: AllowlistConfig): (r: SignInResult)
    ensures provider != Some("google") ==> r == SignInAllowed
    ensures provider == Some("google") ==>
      (r == SignInAllowed <==> CheckAllowlist(OrElse(profileEmail, userEmail), config).allowed)
    ensures r.SignInRedirect? ==> r.path == AccessDeniedPath
  {
    if provider == Some("google") then
      var email := OrElse(profileEmail, userEmail);
      if !CheckAllowlist(email, config).allowed then SignInRedirect(AccessDeniedPath) else SignInAllowed
    else SignInAllowed
  }

  /**
   * Sign-in and the re-validation on every navigation agree: an e-mail
   * accepted at Google sign-in opens the protected pages, and one refused
   * there is refused on them too.
   */
  lemma SignInAgreesWithNavigation(email: string, pathname: string, config: AllowlistConfig)
    requires IsOnDashboard(pathname)
    ensures SignIn(Some("google"), Some(email), None, config) == SignInAllowed
      <==> Authorized(Some(SessionUser(Some(email))), pathname, config) == Allow
  {
    if email == "" {
      assert OrElse(Some(email), None) == None;
    } else {
      assert OrElse(Some(email), None) == Some(email);
    }
  }

  /** With no allowlist configured, no Google sign-in succeeds. */
  lemma SignInFailsClosed(profileEmail: Option<string>, userEmail: Option<string>)
    ensures SignIn(Some("google"), profileEmail, userEmail, LoadAllowlistConfig(None, None)) == SignInRedirect(AccessDeniedPath)
  {
    FailClosed(OrElse(profileEmail, userEmail), None, None);
  }

  // ---------------------------------------------------------------------
  // Token and session
  // ---------------------------------------------------------------------

  /** The user, profile and account objects handed to the token callback. */
  datatype User = User(image: Option<string>, email: Option<string>)
  datatype Profile = Profile(picture: Option<string>, email: Option<string>)
  datatype Account = Account(provider: string)

  /** The session token: the fields the callbacks write. */
  class Token {
    var picture: Option<string>
    var email: Option<string>
    var provider: Option<string>

    constructor(picture: Option<string>, email: Option<string>, provider: Option<string>)
      ensures this.picture == picture && this.email == email && this.provider == provider
    {
      this.picture := picture;
      this.email := email;
      this.provider := provider;
    }

    /**
     * The `jwt` callback: the user's image and e-mail are copied in, then a
     * non-empty profile picture or e-mail overrides them; the provider is
     * recorded only when an account is present.
     */
    method Jwt(user: Option<User>, profile: Option<Profile>, account: Option<Account>)
      modifies this
      ensures picture ==
        if profile.Some? && Truthy(profile.value.picture) then profile.value.picture
        else if user.Some? then user.value.image
        else old(picture)
      ensures email ==
        if profile.Some? && Truthy(profile.value.email) then profile.value.email
        else if user.Some? then user.value.email
        else old(email)
      ensures provider == if account.Some? then Some(account.value.provider) else old(provider)
    {
      if user.Some? {
        picture := user.value.image;
        email := user.value.email;
      }
      if profile.Some? && Truthy(profile.value.picture) {
        picture := profile.value.picture;
      }
      if profile.Some? && Truthy(profile.value.email) {
        email := profile.value.email;
      }
      if account.Some? {
        provider := Some(account.value.provider);
      }
    }
  }

  /** The session handed to the client: whether it has a user, and the fields the callback writes. */
  class Session {
    var hasUser: bool
    var image: Option<string>
    var provider: Option<string>

    constructor(hasUser: bool)
      ensures this.hasUser == hasUser && image == None && provider == None
    {
      this.hasUser := hasUser;
      image := None;
      provider := None;
    }

    /**
     * The `session` callback: when the session has a user, its image is the
     * token's picture or null when that is empty, and its provider is the
     * token's. A session without a user is returned unchanged.
     */
    method ApplyToken(token: Token)
      modifies this`image, this`provider
      ensures hasUser ==> image == (if Truthy(token.picture) then token.picture else None)
      ensures hasUser ==> provider == token.provider
      ensures !hasUser ==> image == old(image) && provider == old(provider)
      ensures image.Some? ==> image.value != "" || !hasUser
    {
      if hasUser {
        image := if Truthy(token.picture) then token.picture else None;
        provider := token.provider;
      }
    }
  }

  // ---------------------------------------------------------------------
  // The audit-log page is not guarded
  // ---------------------------------------------------------------------

  /**
   * As written, the audit-log page, listed in the sidebar beside the
   * protected pages, is not among the guarded prefixes: a visitor with no
   * session is let through to it.
   */
  lemma AuditLogsOpenWithoutSession(config: AllowlistConfig)
    ensures Authorized(None, "/audit-logs", config) == Allow
    ensures Authorized(None, "/streams", config) == RedirectToLogin
  {
    var p := "/audit-logs";
    DiffersAt(p, "/streams", 1);
    DiffersAt(p, "/broadcasters", 1);
    DiffersAt(p, "/stream-keys", 1);
    assert p != AccessDeniedPath && p != LoginPath;
    assert "/streams"[..|"/streams"|] == "/streams";
  }

  /** The protected paths with the audit log included. */
  predicate IsOnGuardedDashboard(pathname: string) {
    IsOnDashboard(pathname) || StartsWith(pathname, "/audit-logs")
  }

  /** The guard with the audit-log page protected like the other sidebar pages. */
  function AuthorizedWithAuditLogs(user: Option<SessionUser>, pathname: string, config: AllowlistConfig): (d: Decision)
    ensures pathname == AccessDeniedPath ==> d == Allow
    ensures d == RedirectToLogin <==> IsOnGuardedDashboard(pathname) && user.None?
    ensures d == RedirectTo(AccessDeniedPath) <==>
      IsOnGuardedDashboard(pathname) && user.Some? && !CheckAllowlist(user.value.email, config).allowed
    ensures IsOnDashboard(pathname) ==> d == Authorized(user, pathname, config)
  {
    if pathname == AccessDeniedPath then AccessDeniedIsNotGuarded(); Allow
    else if IsOnGuardedDashboard(pathname) then
      if user.None? then RedirectToLogin
      else if !CheckAllowlist(user.value.email, config).allowed then RedirectTo(AccessDeniedPath)
      else Allow
    else if user.Some? && pathname == LoginPath then RedirectTo(StreamsPath)
    else Allow
  }

  /** With the audit log guarded, every page of the sidebar needs a session. */
  lemma EverySidebarPageNeedsSession(page: string, rest: string, config: AllowlistConfig)
    requires page in {"/streams", "/broadcasters", "/stream-keys", "/audit-logs"}
    ensures AuthorizedWithAuditLogs(None, page + rest, config) == RedirectToLogin
  {
    assert (page + rest)[..|page|] == page;
  }
}
