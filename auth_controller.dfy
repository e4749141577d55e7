/**
 * The authentication handlers: sign-up, login, the route guard `protect`,
 * the two password-reset steps and logout, over the user collection.
 *
 * Time (`Date.now()`) is the parameter `now`, in milliseconds; one request
 * sees one time. Token signing and verification, the email check and the
 * mail transport are parameters: `Config` carries the first three and the
 * handlers that send mail take the transport's error, if any.
 */
module AuthController {
  import opened Common
  import opened Errors
  import opened UserModel
  import opened Http

  /** What `jwt.verify` gives back: the payload of a good token, or the error
      it throws (`JsonWebTokenError`, `TokenExpiredError`). */
  datatype Decoded = Verified(id: Id, iat: int) | Rejected(name: string, message: string)

  /** The environment and the library calls the handlers depend on. */
  datatype Config = Config(
    nodeEnv: string,                  // NODE_ENV
    cookieExpiresInDays: int,         // JWT_COOKIE_EXPIRES_IN
    hostUrl: string,                  // HOST_URL
    sign: (Id, int) -> string,        // jwt.sign({ id }, ...) issued in a given second
    verify: (string, int) -> Decoded, // jwt.verify(token, ...) at a given time
    isEmail: string -> bool)          // validator.isEmail

  /** The JSON bodies the handlers send. */
  datatype Body =
    | TokenBody(status: string, token: string, user: UserData)
    | MessageBody(status: string, message: string)
    | StatusBody(status: string)

  /** The request, as far as the handlers read or write it. */
  class Request {
    var authorization: Option<string>   // req.headers.authorization
    var user: Option<User>              // req.user, set by protect

    constructor (authorization: Option<string>)
      ensures this.authorization == authorization && user == None
    {
      this.authorization := authorization;
      user := None;
    }
  }

  const DayInMilliseconds: int := 24 * 60 * 60 * 1000

  const MissingCredentialsMessage := "Please provide email and password"
  const BadCredentialsMessage := "Invalid email or password"
  const NotLoggedInMessage := "Your not logged in please login to get access."
  const UserGoneMessage := "The user belonging to this token does no longer exist."
  const PasswordChangedMessage := "User recently changed password! please login again."
  const NoSuchEmailMessage := "There is no user with this email address."
  const MailFailedMessage := "There was an error sending your email. Please try again later!."
  const ResetExpiredMessage := "Your password reset link has expired. Please request a new one."
  const CheckEmailMessage := "Check your email for further instructions."

  // ---------------------------------------------------------------------------
  // createAndSendToken, logout
  // ---------------------------------------------------------------------------

  /** The `jwt` cookie: it lives `cookieExpiresInDays` days, is never readable
      by scripts, and is HTTPS-only exactly in production. */
  function TokenCookie(token: string, now: int, cfg: Config): (c: Cookie)
    ensures c.name == "jwt" && c.value == token && c.httpOnly
    ensures c.secure <==> cfg.nodeEnv == "production"
    ensures c.expires == Some(now + cfg.cookieExpiresInDays * 86400000)
  {
    Cookie("jwt", token, Some(now + cfg.cookieExpiresInDays * DayInMilliseconds), true, cfg.nodeEnv == "production")
  }

  /** The behaviour of `jwt.verify` on what `jwt.sign` produced: within the
      second it was issued in, a token verifies as its user and that second. */
  ghost predicate RoundTrips(cfg: Config) {
    forall id, sec, time :: sec * 1000 <= time < sec * 1000 + 1000 ==>
      cfg.verify(cfg.sign(id, sec), time) == Verified(id, sec)
  }

  /** The token issued at `now` for user `id`: `iat` is the current second. */
  function IssuedToken(id: Id, now: int, cfg: Config): (t: string)
    ensures RoundTrips(cfg) ==> cfg.verify(t, now) == Verified(id, now / 1000)
  {
    cfg.sign(id, now / 1000)
  }

  /**
   * `createAndSendToken(user, statusCode, res)`: sign a token for the user,
   * set it as the `jwt` cookie, drop the password from the document and send
   * the token and the user.
   */
  method CreateAndSendToken(user: User, statusCode: int, res: Response<Body>, now: int, cfg: Config)
    requires user.Valid()
    modifies user, res
    ensures user.Valid() && user.isNew == old(user.isNew)
    ensures user.Data() == old(user.Data()).(password := None)
    ensures res.cookies == old(res.cookies) + [TokenCookie(IssuedToken(user.id, now, cfg), now, cfg)]
    ensures res.statusCode == Some(statusCode)
    ensures res.body == Some(TokenBody("success", IssuedToken(user.id, now, cfg), user.Data()))
  {
    var token := cfg.sign(user.id, now / 1000);
    var cookie := Cookie("jwt", token, Some(now + cfg.cookieExpiresInDays * 24 * 60 * 60 * 1000), true, false);
    if cfg.nodeEnv == "production" {
      cookie := cookie.(secure := true);
    }
    res.SetCookie(cookie);
    user.RemovePassword();
    res.Send(statusCode, TokenBody("success", token, user.Data()));
  }

  /** `logout`: overwrite the `jwt` cookie with a placeholder that expires in
      ten seconds. */
  method Logout(res: Response<Body>, now: int) returns (outcome: Outcome)
    modifies res
    ensures outcome == Sent
    ensures res.cookies == old(res.cookies) + [Cookie("jwt", "loggedout", Some(now + 10000), true, false)]
    ensures res.statusCode == Some(200) && res.body == Some(StatusBody("success"))
  {
    res.SetCookie(Cookie("jwt", "loggedout", Some(now + 10 * 1000), true, false));
    res.Send(200, StatusBody("success"));
    outcome := Sent;
  }

  /** The logout cookie replaces the token cookie (same name) and holds no
      token of its own. */
  lemma LogoutReplacesToken(token: string, now: int, later: int, cfg: Config)
    requires cfg.cookieExpiresInDays >= 1 && later >= now
    ensures var login := TokenCookie(token, now, cfg);
      var logout := Cookie("jwt", "loggedout", Some(later + 10000), true, false);
      login.name == logout.name && logout.httpOnly && !logout.secure &&
      (later < now + 86400000 - 10000 ==> logout.expires.value < login.expires.value)
  {
  }

  // ---------------------------------------------------------------------------
  // signup
  // ---------------------------------------------------------------------------

  /**
   * `signup`: create the user, send the welcome mail, then log the user in
   * with status 201. A failing mail ends in `next(err)` but the user stays
   * created.
   */
  method Signup(store: UserStore, id: Id, username: Option<string>, email: Option<string>,
                password: Option<string>, confirmPassword: Option<string>,
                mailError: Option<Err>, now: int, cfg: Config, res: Response<Body>)
    returns (outcome: Outcome)
    requires store.Valid() && IndexOf(store.docs, id).None?
    modifies store, res
    ensures store.Valid()
    ensures var d := NewUser(username, email, password, confirmPassword);
      !UserValid(d, cfg.isEmail) ==>
        outcome == Failed(ValidationError("User", UserErrors(d, cfg.isEmail))) && store.docs == old(store.docs) &&
        unchanged(res)
    ensures var d := NewUser(username, email, password, confirmPassword);
      (UserValid(d, cfg.isEmail) && FindByEmail(old(store.docs), email.value).Some?) ==>
        outcome == Failed(DuplicateKey([ToLower(email.value)])) && store.docs == old(store.docs) && unchanged(res)
    ensures var d := NewUser(username, email, password, confirmPassword);
      (UserValid(d, cfg.isEmail) && FindByEmail(old(store.docs), email.value).None?) ==>
        var stored := d.(password := Some(Bcrypt(password.value, HashCost)), confirmPassword := None);
        store.docs == old(store.docs) + [Doc(id, stored)] &&
        (mailError.Some? ==> outcome == Failed(mailError.value) && unchanged(res)) &&
        (mailError.None? ==>
          outcome == Sent && res.statusCode == Some(201) &&
          res.cookies == old(res.cookies) + [TokenCookie(IssuedToken(id, now, cfg), now, cfg)] &&
          res.body == Some(TokenBody("success", IssuedToken(id, now, cfg), stored.(password := None))))
  {
    var created := store.Create(id, username, email, password, confirmPassword, now, cfg.isEmail);
    if created.Fail? {
      return Failed(created.err);
    }
    var newUser := created.value;
    if mailError.Some? {
      return Failed(mailError.value);
    }
    CreateAndSendToken(newUser, 201, res, now, cfg);
    outcome := Sent;
  }

  // ---------------------------------------------------------------------------
  // login
  // ---------------------------------------------------------------------------

  /** How the checks of `login` end. */
  datatype LoginCheck = MissingCredentials | BadCredentials | Authenticated(index: nat)

  /** Both fields are needed; then the stored hash for that email must match
      the password. */
  function CheckLogin(docs: seq<Doc>, email: Option<string>, password: Option<string>): (r: LoginCheck)
    ensures r.Authenticated? ==> r.index < |docs|
    ensures r.MissingCredentials? <==> !Truthy(email) || !Truthy(password)
  {
    if !Truthy(email) || !Truthy(password) then MissingCredentials
    else match FindByEmail(docs, email.value)
      case None => BadCredentials
      case Some(i) =>
        if docs[i].data.password.Some? && CorrectPassword(password.value, docs[i].data.password.value)
        then Authenticated(i) else BadCredentials
  }

  /** Login succeeds exactly for a stored user with that email (in any case)
      whose password hash is the hash of the password given. */
  lemma LoginSucceedsIff(docs: seq<Doc>, email: string, password: string)
    requires Consistent(docs) && email != "" && password != ""
    ensures CheckLogin(docs, Some(email), Some(password)).Authenticated? <==>
      exists i :: 0 <= i < |docs| && docs[i].data.email == Some(ToLower(email)) &&
                  docs[i].data.password == Some(Bcrypt(password, HashCost))
  {
    var found := FindByEmail(docs, email);
    if i :| 0 <= i < |docs| && docs[i].data.email == Some(ToLower(email)) &&
            docs[i].data.password == Some(Bcrypt(password, HashCost)) {
      assert found.Some?;
      assert docs[found.value].data.email == docs[i].data.email;
    }
  }

  /** An unknown email and a wrong password end alike: the answer does not
      tell which emails are registered. */
  lemma UnknownEmailLikeWrongPassword(docs: seq<Doc>, email: string, password: string, other: string)
    requires email != "" && password != "" && other != ""
    requires FindByEmail(docs, email).None?
    requires Consistent(docs) && FindByEmail(docs, other).Some?
    requires docs[FindByEmail(docs, other).value].data.password != Some(Bcrypt(password, HashCost))
    ensures CheckLogin(docs, Some(email), Some(password)) == BadCredentials
    ensures CheckLogin(docs, Some(other), Some(password)) == BadCredentials
  {
  }

  /**
   * `login`: missing fields are a 400 before any lookup; an unknown user and
   * a wrong password are the same 401; otherwise set the `hello` cookie and
   * log the user in.
   */
  method Login(store: UserStore, email: Option<string>, password: Option<string>,
               now: int, cfg: Config, res: Response<Body>) returns (outcome: Outcome)
    requires store.Valid()
    modifies res
    ensures CheckLogin(store.docs, email, password).MissingCredentials? ==>
      outcome == Failed(AppError(MissingCredentialsMessage, Some(400))) && unchanged(res)
    ensures CheckLogin(store.docs, email, password).BadCredentials? ==>
      outcome == Failed(AppError(BadCredentialsMessage, Some(401))) && unchanged(res)
    ensures CheckLogin(store.docs, email, password).Authenticated? ==>
      var doc := store.docs[CheckLogin(store.docs, email, password).index];
      var token := IssuedToken(doc.id, now, cfg);
      outcome == Sent &&
      res.cookies == old(res.cookies) + [Cookie("hello", "me", None, false, false), TokenCookie(token, now, cfg)] &&
      res.statusCode == Some(200) &&
      res.body == Some(TokenBody("success", token, doc.data.(password := None, confirmPassword := None)))
  {
    if !Truthy(email) || !Truthy(password) {
      return Failed(AppError("Please provide email and password", Some(400)));
    }
    var found := FindByEmail(store.docs, email.value);
    if found.None? || !CorrectPassword(password.value, store.docs[found.value].data.password.value) {
      return Failed(AppError("Invalid email or password", Some(401)));
    }
    var doc := store.docs[found.value];
    var user := new User.Loaded(doc.id, doc.data, true);
    res.SetCookie(Cookie("hello", "me", None, false, false));
    CreateAndSendToken(user, 200, res, now, cfg);
    outcome := Sent;
  }

  // ---------------------------------------------------------------------------
  // protect
  // ---------------------------------------------------------------------------

  /** The token of an `Authorization` header that starts with "Bearer": the
      second space-separated piece, if there is one. */
  function BearerToken(authorization: Option<string>): (token: Option<string>)
    ensures token.Some? ==> authorization.Some? && StartsWith(authorization.value, "Bearer")
    ensures token.Some? ==> ' ' !in token.value
  {
    if Truthy(authorization) && StartsWith(authorization.value, "Bearer") then
      var parts := Split(authorization.value, ' ');
      if |parts| > 1 then Some(parts[1]) else None
    else None
  }

  /** The header a client builds from a token gives that token back. */
  lemma BearerTokenRoundTrip(token: string)
    requires ' ' !in token
    ensures BearerToken(Some("Bearer " + token)) == Some(token)
  {
    var h := "Bearer " + token;
    assert h == "Bearer" + [' '] + token;
    SplitAtSeparator("Bearer", ' ', token);
    SplitWithoutSeparator(token, ' ');
    assert h[..6] == "Bearer";
  }

  /** How the checks of `protect` end, in the order they are made. */
  datatype ProtectCheck =
    | NotLoggedIn
    | TokenRejected(name: string, message: string)
    | UserGone
    | PasswordChanged
    | Granted(index: nat)

  function CheckProtect(docs: seq<Doc>, authorization: Option<string>, now: int,
                        verify: (string, int) -> Decoded): (r: ProtectCheck)
    ensures r.Granted? ==> r.index < |docs|
    ensures r.NotLoggedIn? <==> !Truthy(BearerToken(authorization))
    ensures var token := BearerToken(authorization);
      r.TokenRejected? <==> Truthy(token) && verify(token.value, now).Rejected?
    ensures var token := BearerToken(authorization);
      r.TokenRejected? ==> r.name == verify(token.value, now).name && r.message == verify(token.value, now).message
    ensures var token := BearerToken(authorization);
      r.UserGone? <==>
        Truthy(token) && verify(token.value, now).Verified? && IndexOf(docs, verify(token.value, now).id).None?
    ensures var token := BearerToken(authorization);
      r.PasswordChanged? <==>
        Truthy(token) && verify(token.value, now).Verified? && IndexOf(docs, verify(token.value, now).id).Some? &&
        ChangedPasswordAfter(docs[IndexOf(docs, verify(token.value, now).id).value].data.passwordChangedAt,
                             verify(token.value, now).iat)
    ensures var token := BearerToken(authorization);
      r.Granted? ==>
        Truthy(token) && verify(token.value, now).Verified? && docs[r.index].id == verify(token.value, now).id
  {
    var token := BearerToken(authorization);
    if !Truthy(token) then NotLoggedIn
    else match verify(token.value, now)
      case Rejected(name, message) => TokenRejected(name, message)
      case Verified(id, iat) =>
        match IndexOf(docs, id)
        case None => UserGone
        case Some(i) =>
          if ChangedPasswordAfter(docs[i].data.passwordChangedAt, iat) then PasswordChanged else Granted(i)
  }

  /** Access is granted exactly when every check passes: a non-empty bearer
      token that verifies, a user with its id, and no password change after
      the token was issued. */
  lemma ProtectGrantsIff(docs: seq<Doc>, authorization: Option<string>, now: int,
                         verify: (string, int) -> Decoded, i: nat)
    requires Consistent(docs) && i < |docs|
    ensures CheckProtect(docs, authorization, now, verify) == Granted(i) <==>
      Truthy(BearerToken(authorization)) &&
      verify(BearerToken(authorization).value, now).Verified? &&
      verify(BearerToken(authorization).value, now).id == docs[i].id &&
      !ChangedPasswordAfter(docs[i].data.passwordChangedAt, verify(BearerToken(authorization).value, now).iat)
  {
    if Truthy(BearerToken(authorization)) && verify(BearerToken(authorization).value, now).Verified? {
      var id := verify(BearerToken(authorization).value, now).id;
      if id == docs[i].id {
        var found := IndexOf(docs, id);
        assert found.Some?;
        assert docs[found.value].id == docs[i].id;
      }
    }
  }

  /**
   * `protect`: take the bearer token, verify it, find its user and check
   * that the password did not change after the token was issued. Only when
   * all pass is `req.user` set (to the document without its secret paths)
   * and the request handed on.
   */
  method Protect(req: Request, store: UserStore, now: int, cfg: Config) returns (outcome: Outcome)
    requires store.Valid()
    modifies req
    ensures var c := CheckProtect(store.docs, req.authorization, now, cfg.verify);
      (c.NotLoggedIn? ==> outcome == Failed(AppError(NotLoggedInMessage, Some(401)))) &&
      (c.TokenRejected? ==> outcome == Failed(Thrown(c.name, c.message))) &&
      (c.UserGone? ==> outcome == Failed(AppError(UserGoneMessage, Some(401)))) &&
      (c.PasswordChanged? ==> outcome == Failed(AppError(PasswordChangedMessage, Some(401)))) &&
      (!c.Granted? ==> req.user == old(req.user)) &&
      (c.Granted? ==>
        outcome == Passed && req.user.Some? && fresh(req.user.value) &&
        req.user.value.id == store.docs[c.index].id && req.user.value.Valid() &&
        req.user.value.Data() == store.docs[c.index].data.(password := None, confirmPassword := None))
    ensures req.authorization == old(req.authorization)
  {
    var token := BearerToken(req.authorization);
    if !Truthy(token) {
      return Failed(AppError("Your not logged in please login to get access.", Some(401)));
    }
    var decoded := cfg.verify(token.value, now);
    if decoded.Rejected? {
      return Failed(Thrown(decoded.name, decoded.message));
    }
    var found := IndexOf(store.docs, decoded.id);
    if found.None? {
      return Failed(AppError("The user belonging to this token does no longer exist.", Some(401)));
    }
    var doc := store.docs[found.value];
    var currentUser := new User.Loaded(doc.id, doc.data, false);
    if ChangedPasswordAfter(currentUser.passwordChangedAt, decoded.iat) {
      return Failed(AppError("User recently changed password! please login again.", Some(401)));
    }
    req.user := Some(currentUser);
    outcome := Passed;
  }

  // ---------------------------------------------------------------------------
  // forgotPassword, resetPassword
  // ---------------------------------------------------------------------------

  /** `findOne({ email })` for a body that may lack the email. A filter key
      whose value is `undefined` is taken to be dropped (an assumption, see
      README), so without an email the filter is empty and the first record
      is found. */
  function FindByOptionalEmail(docs: seq<Doc>, email: Option<string>): (r: Option<nat>)
    ensures email.Some? ==> r == FindByEmail(docs, email.value)
    ensures email.None? ==> (r.Some? <==> docs != [])
  {
    FirstMatch(docs, (d: Doc) => email.None? || d.data.email == Some(ToLower(email.value)))
  }

  /** The record with its reset fields replaced. */
  function WithReset(d: UserData, token: Option<Digest>, expiresAt: Option<int>): UserData {
    d.(passwordResetToken := token, passwordResetTokenExpiresAt := expiresAt)
  }

  /**
   * `forgotPassword`: give the user with that email a reset token, save it
   * unvalidated and mail the link `HOST_URL + "new-password/" + token`. When
   * the mail fails, both reset fields are cleared again. `resetUrl` is the
   * link handed to the mailer. The status codes written beside `next(...)`
   * are not read: both errors reach the handler without one.
   */
  method ForgotPassword(store: UserStore, email: Option<string>, randomBytes: seq<byte>, now: int,
                        mailError: Option<Err>, cfg: Config, res: Response<Body>)
    returns (outcome: Outcome, resetUrl: Option<string>)
    requires store.Valid() && |randomBytes| == 32
    modifies store, res
    ensures store.Valid()
    ensures FindByOptionalEmail(old(store.docs), email).None? ==>
      outcome == Failed(AppError(NoSuchEmailMessage, None)) && resetUrl == None && store.docs == old(store.docs) &&
      unchanged(res)
    ensures FindByOptionalEmail(old(store.docs), email).Some? ==>
      var i := FindByOptionalEmail(old(store.docs), email).value;
      var doc := old(store.docs)[i];
      var token := HexEncode(randomBytes);
      resetUrl == Some(cfg.hostUrl + "new-password/" + token) &&
      (mailError.None? ==>
        outcome == Sent &&
        store.docs == old(store.docs)[i := Doc(doc.id, WithReset(doc.data, Some(Sha256(token)), Some(now + ResetTokenLifetime)))] &&
        res.statusCode == Some(200) && res.body == Some(MessageBody("success", CheckEmailMessage))) &&
      (mailError.Some? ==>
        outcome == Failed(AppError(MailFailedMessage, None)) && unchanged(res) &&
        store.docs == old(store.docs)[i := Doc(doc.id, WithReset(doc.data, None, None))])
  {
    var found := FindByOptionalEmail(store.docs, email);
    if found.None? {
      return Failed(AppError("There is no user with this email address.", None)), None;
    }
    outcome, resetUrl := SendResetLink(store, found.value, randomBytes, now, mailError, cfg, res);
  }

  /** The part of `forgotPassword` after the user at position `i` was found. */
  method SendResetLink(store: UserStore, i: nat, randomBytes: seq<byte>, now: int,
                       mailError: Option<Err>, cfg: Config, res: Response<Body>)
    returns (outcome: Outcome, resetUrl: Option<string>)
    requires store.Valid() && i < |store.docs| && |randomBytes| == 32
    modifies store, res
    ensures store.Valid()
    ensures var doc := old(store.docs)[i];
      var token := HexEncode(randomBytes);
      resetUrl == Some(cfg.hostUrl + "new-password/" + token) &&
      (mailError.None? ==>
        outcome == Sent &&
        store.docs == old(store.docs)[i := Doc(doc.id, WithReset(doc.data, Some(Sha256(token)), Some(now + ResetTokenLifetime)))] &&
        res.statusCode == Some(200) && res.body == Some(MessageBody("success", CheckEmailMessage))) &&
      (mailError.Some? ==>
        outcome == Failed(AppError(MailFailedMessage, None)) && unchanged(res) &&
        store.docs == old(store.docs)[i := Doc(doc.id, WithReset(doc.data, None, None))])
  {
    var doc := store.docs[i];
    IdsAreIndexes(store.docs, i);
    var user := new User.Loaded(doc.id, doc.data, false);
    var resetToken := user.CreatePasswordResetToken(randomBytes, now);
    var err := store.Save(user, false, now, cfg.isEmail);
    assert store.docs[i].id == user.id;
    resetUrl := Some(cfg.hostUrl + "new-password/" + resetToken);
    if mailError.None? {
      res.Send(200, MessageBody("success", "Check your email for further instructions."));
      return Sent, resetUrl;
    }
    user.ClearResetFields();
    err := store.Save(user, false, now, cfg.isEmail);
    outcome := Failed(AppError("There was an error sending your email. Please try again later!.", None));
  }

  /** In a consistent collection the position of a record is the position
      of its id. */
  lemma IdsAreIndexes(docs: seq<Doc>, i: nat)
    requires Consistent(docs) && i < |docs|
    ensures IndexOf(docs, docs[i].id) == Some(i)
  {
    var found := IndexOf(docs, docs[i].id);
    assert found.Some?;
    assert docs[found.value].id == docs[i].id;
  }

  /** The first record whose reset digest is that of `token` and whose reset
      expiry lies after `now`. */
  function ResetMatch(docs: seq<Doc>, token: string, now: int): (r: Option<nat>)
    ensures r.Some? ==> r.value < |docs| && ResetPending(docs[r.value].data, token, now)
    ensures r.None? <==> forall j :: 0 <= j < |docs| ==> !ResetPending(docs[j].data, token, now)
  {
    FirstMatch(docs, (d: Doc) => ResetPending(d.data, token, now))
  }

  /** `{ passwordResetToken: hashedToken, passwordResetTokenExpiresAt: { $gt: now } }`. */
  predicate ResetPending(d: UserData, token: string, now: int) {
    d.passwordResetToken == Some(Sha256(token)) &&
    d.passwordResetTokenExpiresAt.Some? && d.passwordResetTokenExpiresAt.value > now
  }

  /** The document `resetPassword` saves: the password and its confirmation
      from the body, the reset fields cleared. */
  function ResetDocument(d: UserData, password: Option<string>, confirmPassword: Option<string>): UserData {
    WithReset(d, None, None).(password := Typed(password), confirmPassword := confirmPassword)
  }

  /**
   * `resetPassword`: find the user by the digest of the token among those
   * whose link has not expired, set the new password, clear the reset fields
   * and save with validation (the hooks hash the password and record the
   * change); then log the user in.
   */
  method ResetPassword(store: UserStore, token: string, password: Option<string>, confirmPassword: Option<string>,
                       now: int, cfg: Config, res: Response<Body>) returns (outcome: Outcome)
    requires store.Valid()
    modifies store, res
    ensures store.Valid()
    ensures ResetMatch(old(store.docs), token, now).None? ==>
      outcome == Failed(AppError(ResetExpiredMessage, Some(400))) && store.docs == old(store.docs) && unchanged(res)
    ensures ResetMatch(old(store.docs), token, now).Some? ==>
      var i := ResetMatch(old(store.docs), token, now).value;
      var doc := old(store.docs)[i];
      var given := ResetDocument(doc.data, password, confirmPassword);
      (!UserValid(given, cfg.isEmail) ==>
        outcome == Failed(ValidationError("User", UserErrors(given, cfg.isEmail))) &&
        store.docs == old(store.docs) && unchanged(res)) &&
      (UserValid(given, cfg.isEmail) ==>
        var stored := WithReset(doc.data, None, None).(password := Some(Bcrypt(password.value, HashCost)),
                                                       passwordChangedAt := Some(now - ChangeBackdate));
        outcome == Sent &&
        store.docs == old(store.docs)[i := Doc(doc.id, stored)] &&
        res.cookies == old(res.cookies) + [TokenCookie(IssuedToken(doc.id, now, cfg), now, cfg)] &&
        res.statusCode == Some(200) &&
        res.body == Some(TokenBody("success", IssuedToken(doc.id, now, cfg), stored.(password := None))))
  {
    var found := ResetMatch(store.docs, token, now);
    if found.None? {
      return Failed(AppError("Your password reset link has expired. Please request a new one.", Some(400)));
    }
    var doc := store.docs[found.value];
    IdsAreIndexes(store.docs, found.value);
    var user := new User.Loaded(doc.id, doc.data, false);
    user.SetPasswords(password, confirmPassword);
    user.ClearResetFields();
    var err := store.Save(user, true, now, cfg.isEmail);
    if err.Some? {
      return Failed(err.value);
    }
    CreateAndSendToken(user, 200, res, now, cfg);
    outcome := Sent;
  }

  // ---------------------------------------------------------------------------
  // properties across handlers
  // ---------------------------------------------------------------------------

  /** A reset link works for ten minutes: until then the token finds its user
      (when no other record holds the same digest), from then on never. */
  lemma ResetLinkLifetime(docs: seq<Doc>, i: nat, token: string, now: int, t: int)
    requires i < |docs|
    requires forall j :: 0 <= j < |docs| && j != i ==> docs[j].data.passwordResetToken != Some(Sha256(token))
    ensures var after := docs[i := Doc(docs[i].id, WithReset(docs[i].data, Some(Sha256(token)), Some(now + ResetTokenLifetime)))];
      (t < now + ResetTokenLifetime ==> ResetMatch(after, token, t) == Some(i)) &&
      (t >= now + ResetTokenLifetime ==> ResetMatch(after, token, t) == None)
  {
    var after := docs[i := Doc(docs[i].id, WithReset(docs[i].data, Some(Sha256(token)), Some(now + ResetTokenLifetime)))];
    var r := ResetMatch(after, token, t);
    if t < now + ResetTokenLifetime {
      assert ResetPending(after[i].data, token, t);
    }
  }

  /** A cleared record matches no token: a reset link is good for one reset,
      and a failed mail leaves no link behind. */
  lemma ClearedResetMatchesNothing(docs: seq<Doc>, i: nat, d: UserData, token: string, t: int)
    requires i < |docs| && d.passwordResetToken.None?
    ensures ResetMatch(docs[i := Doc(docs[i].id, d)], token, t) != Some(i)
  {
  }

  /** After a password reset at `now`, a token issued in that second or later
      for the same user passes `protect`. */
  lemma NewTokenAcceptedAfterReset(docs: seq<Doc>, i: nat, token: string, now: int, t: int,
                                   verify: (string, int) -> Decoded)
    requires Consistent(docs) && i < |docs| && now >= ChangeBackdate
    requires docs[i].data.passwordChangedAt == Some(now - ChangeBackdate)
    requires token != "" && ' ' !in token
    requires verify(token, t).Verified? && verify(token, t).id == docs[i].id && verify(token, t).iat >= now / 1000
    ensures CheckProtect(docs, Some("Bearer " + token), t, verify) == Granted(i)
  {
    BearerTokenRoundTrip(token);
    FreshTokenNotStale(now, verify(token, t).iat);
    IdsAreIndexes(docs, i);
  }

  /** A sign-up with a short password is answered, in production, with a 400
      that names the password and the minimum length. */
  lemma ShortPasswordAnswer(username: Option<string>, email: Option<string>, password: string,
                            confirmPassword: Option<string>, isEmail: string -> bool)
    requires 0 < |password| < MinPasswordLength
    ensures var fs := UserErrors(NewUser(username, email, Some(password), confirmPassword), isEmail);
      Respond(ValidationError("User", fs), "production") ==
        Some(ProdResponse(400, "fail", "Invalid input data: " + JoinWith(Messages(fs), ". "))) &&
      MinLengthMessage(password) in Messages(fs)
  {
    var d := NewUser(username, email, Some(password), confirmPassword);
    ShortPasswordReported(d, isEmail, password);
    MessageShown(UserErrors(d, isEmail), ValidatorError("password", MinLengthMessage(password)));
    ProdValidationFailure("User", UserErrors(d, isEmail));
  }

  /** A sign-up with a taken email is answered, in production, with the
      handler's one duplicate-key message, which speaks of a series name. */
  lemma TakenEmailAnswer(email: string)
    ensures Respond(DuplicateKey([ToLower(email)]), "production") == Some(ProdResponse(400, "fail", DuplicateMessage))
  {
    ProdDuplicateKey(DuplicateKey([ToLower(email)]), []);
  }

  /** In production the unknown-email answer of `forgotPassword` is a 500,
      not the 400 written beside it. */
  lemma NoSuchEmailIsServerError()
    ensures Respond(AppError(NoSuchEmailMessage, None), "production") ==
      Some(ProdResponse(500, "error", NoSuchEmailMessage))
  {
  }
}
