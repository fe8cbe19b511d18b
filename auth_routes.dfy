/**
 * The register, login and onboarding route handlers as decision procedures
 * over an account store. The store is a map from the normalised email
 * address to the account; password hashing and token signing are services
 * passed in as uninterpreted functions, and so are the two conditions the
 * handlers cannot decide themselves (whether the database connection comes
 * up, whether the deployment is production).
 */
module AuthRoutes {
  import opened Wrappers
  import opened Strings
  import opened UserModel

  /** The claims a session token carries. */
  type Claims = map<string, string>

  /** The user collection, keyed by the (unique) email address. */
  type Db = map<string, Account>

  /** The cookies a browser sends back, by name. */
  type CookieJar = map<string, string>

  /** What the handlers call but do not define. */
  datatype Services = Services(
    hash: string -> string,            // bcrypt.hash(password, 12)
    compare: (string, string) -> bool, // bcrypt.compare(plain, hashed)
    sign: Claims -> Option<string>,    // signToken; None when it throws
    verify: string -> Option<Claims>,  // verifyToken; None when it throws
    dbUp: bool,                        // connectToDB succeeds
    production: bool)                  // NODE_ENV === 'production'

  datatype SameSite = Strict | Lax

  datatype Cookie = Cookie(
    name: string,
    value: string,
    httpOnly: bool,
    secure: bool,
    sameSite: SameSite,
    path: string,
    maxAge: int)

  /** Seven days, in seconds. */
  const SessionMaxAge := 60 * 60 * 24 * 7

  /** The cookie name register writes and onboarding reads. */
  const RegisterCookieName := "devtracker_token"

  /** The cookie name login writes. */
  const LoginCookieName := "token"

  /** A JSON response body: `{ error }` or `{ message, user? }`. */
  datatype Body = ErrorBody(error: string) | MessageBody(message: string, user: Option<Account>)

  datatype Response = Response(status: int, body: Body, cookie: Option<Cookie>)

  /** A handler's response together with the store it leaves behind. */
  datatype Outcome = Outcome(response: Response, db: Db)

  /** The register request body; a `None` field was left undefined. */
  datatype RegisterBody = RegisterBody(
    fullName: Option<string>,
    email: string,
    password: Option<string>,
    role: Option<string>,
    skills: Option<seq<string>>,
    authProvider: Option<string>)

  /** The login request body. */
  datatype LoginBody = LoginBody(email: string, password: Option<string>)

  /** The onboarding request body. */
  datatype OnboardingBody = OnboardingBody(
    role: Option<string>,
    skills: Option<seq<string>>,
    aiRoadmap: Option<string>,
    editedRoadmap: Option<string>)

  /** Every stored account sits under its own email and satisfies the schema. */
  ghost predicate ValidStore(db: Db) {
    forall k :: k in db ==> db[k].email == k && ValidAccount(db[k])
  }

  /** An error response; error responses never set a cookie. */
  function Fail(status: int, error: string): (r: Response)
    ensures r.cookie.None? && r.body.ErrorBody? && r.status == status
  {
    Response(status, ErrorBody(error), None)
  }

  /** What every catch block answers. */
  const InternalError := Fail(500, "Internal Server Error")

  /** The session cookie both sign-in routes set, differing only in name and SameSite policy. */
  function SessionCookie(name: string, token: string, secure: bool, sameSite: SameSite): (c: Cookie)
    ensures c.name == name && c.value == token && c.httpOnly && c.path == "/" && c.maxAge == 604800
    ensures c.secure == secure && c.sameSite == sameSite
  {
    Cookie(name, token, true, secure, sameSite, "/", SessionMaxAge)
  }

  /** The claims register signs: the new account's identifier and email. */
  function RegisterClaims(a: Account): (c: Claims)
    ensures c.Keys == {"userId", "email"} && c["userId"] == a.id && c["email"] == a.email
  {
    map["userId" := a.id, "email" := a.email]
  }

  /** The claims login signs: the account's identifier, email and role. */
  function LoginClaims(a: Account): (c: Claims)
    ensures c.Keys == {"id", "email", "role"}
    ensures c["id"] == a.id && c["email"] == a.email && c["role"] == a.role
  {
    map["id" := a.id, "email" := a.email, "role" := a.role]
  }

  /**
   * The values register hands to document creation: the request's fields,
   * the hashed password, and the sign-in method defaulted by destructuring.
   */
  function RegisterDraft(b: RegisterBody, hashed: string): (d: Draft)
    ensures d.password == Some(hashed) && d.email == Some(b.email)
    ensures d.authProvider.Some? && (b.authProvider.None? ==> d.authProvider.value == "credentials")
  {
    Draft(b.fullName, Some(b.email), Some(hashed), b.role, b.skills, None, None,
          Some(b.authProvider.GetOr("credentials")))
  }

  /**
   * POST /api/auth/register: parse the body, connect, reject a taken email
   * with 400, hash the password, create the document (a validation failure
   * throws), sign the token (a failure throws, after the document is
   * stored), then answer 201 with the account and a strict session cookie.
   * `id` is the identifier the database assigns to the new document.
   */
  function Register(db: Db, svc: Services, id: ObjectId, body: Option<RegisterBody>): (o: Outcome)
    ensures o.response.status in {201, 400, 500}
    ensures o.response.status != 201 ==> o.response.cookie.None?
    ensures o.response.status == 400 ==> o.db == db
    ensures o.db != db ==> body.Some? && svc.dbUp && NormalizeEmail(body.value.email) !in db
  {
    if body.None? || !svc.dbUp then Outcome(InternalError, db)
    else
      var b := body.value;
      if NormalizeEmail(b.email) in db then Outcome(Fail(400, "User already exists"), db)
      else if b.password.None? then Outcome(InternalError, db)
      else Insert(db, svc, CreateDocument(id, RegisterDraft(b, svc.hash(b.password.value))))
  }

  /**
   * The tail of register once the document is built: a validation failure
   * is a 500 with nothing stored; a created account is stored under its
   * email, and then answered 201 with the signed `{userId, email}` in a
   * strict session cookie, or 500 when signing throws.
   */
  function Insert(db: Db, svc: Services, created: Result<Account, set<Path>>): (o: Outcome)
    ensures o.response.status in {201, 500}
    ensures o.response.status == 201 <==> created.Success? && svc.sign(RegisterClaims(created.value)).Some?
    ensures o.response.status == 500 ==> o.response == InternalError
    ensures created.Failure? ==> o.db == db
    ensures created.Success? ==> o.db == db[created.value.email := created.value]
  {
    match created
    case Failure(_) => Outcome(InternalError, db)
    case Success(a) =>
      var stored := db[a.email := a];
      match svc.sign(RegisterClaims(a))
      case None => Outcome(InternalError, stored)
      case Some(token) =>
        var cookie := SessionCookie(RegisterCookieName, token, svc.production, Strict);
        Outcome(Response(201, MessageBody("User registered", Some(a)), Some(cookie)), stored)
  }

  /**
   * POST /api/auth/login: parse the body, connect, look the email up (404),
   * compare the password with the stored hash (401; an undefined side makes
   * the comparison throw), sign the token (a failure throws), then answer
   * 200 with a lax session cookie. The store is read, never written.
   */
  function Login(db: Db, svc: Services, body: Option<LoginBody>): (r: Response)
    ensures r.status in {200, 401, 404, 500}
    ensures r.status != 200 ==> r.cookie.None?
  {
    if body.None? || !svc.dbUp then InternalError
    else
      var b := body.value;
      var key := NormalizeEmail(b.email);
      if key !in db then Fail(404, "User not found")
      else
        var a := db[key];
        if b.password.None? || a.password.None? then InternalError
        else if !svc.compare(b.password.value, a.password.value) then Fail(401, "Invalid credentials")
        else LoginSession(svc, a)
  }

  /**
   * The tail of login once the password matches: the signed `{id, email,
   * role}` in a lax session cookie with 200, or 500 when signing throws.
   */
  function LoginSession(svc: Services, a: Account): (r: Response)
    ensures r.status == 200 <==> svc.sign(LoginClaims(a)).Some?
    ensures r.status != 200 ==> r == InternalError
    ensures r.status == 200 ==>
      && r.body == MessageBody("Login successful", None)
      && r.cookie == Some(SessionCookie(LoginCookieName, svc.sign(LoginClaims(a)).value, svc.production, Lax))
  {
    match svc.sign(LoginClaims(a))
    case None => InternalError
    case Some(token) =>
      Response(200, MessageBody("Login successful", None),
               Some(SessionCookie(LoginCookieName, token, svc.production, Lax)))
  }

  /**
   * The update `findOneAndUpdate` applies: each onboarding field the request
   * defines replaces the stored one; undefined fields are stripped from the
   * update; nothing else is touched and no validator runs.
   */
  function Overwrite(a: Account, b: OnboardingBody): (r: Account)
    ensures r.(role := a.role, skills := a.skills, aiRoadmap := a.aiRoadmap, editedRoadmap := a.editedRoadmap) == a
    ensures b.role.Some? ==> r.role == b.role.value
    ensures b.skills.Some? ==> r.skills == b.skills.value
    ensures b.aiRoadmap.Some? ==> r.aiRoadmap == b.aiRoadmap.value
    ensures b.editedRoadmap.Some? ==> r.editedRoadmap == b.editedRoadmap.value
    ensures b.role.None? ==> r.role == a.role
    ensures b.skills.None? ==> r.skills == a.skills
    ensures b.aiRoadmap.None? ==> r.aiRoadmap == a.aiRoadmap
    ensures b.editedRoadmap.None? ==> r.editedRoadmap == a.editedRoadmap
  {
    a.(role := b.role.GetOr(a.role),
       skills := b.skills.GetOr(a.skills),
       aiRoadmap := b.aiRoadmap.GetOr(a.aiRoadmap),
       editedRoadmap := b.editedRoadmap.GetOr(a.editedRoadmap))
  }

  /** The session token onboarding reads: a non-empty `devtracker_token` cookie. */
  function SessionToken(jar: CookieJar): (t: Option<string>)
    ensures t.Some? <==> RegisterCookieName in jar && jar[RegisterCookieName] != ""
  {
    if RegisterCookieName in jar && jar[RegisterCookieName] != "" then Some(jar[RegisterCookieName]) else None
  }

  /**
   * The checks onboarding makes before it touches the store, in order:
   * the `devtracker_token` cookie (401), the token's verification (a throw
   * is 500), the body (a parse failure is 500), the email claim (400) and
   * the connection (500). On success, the email the token names.
   */
  function Authorize(svc: Services, jar: CookieJar, hasBody: bool): (r: Result<string, Response>)
    ensures r.Success? <==>
      && SessionToken(jar).Some? && svc.verify(SessionToken(jar).value).Some? && hasBody
      && var claims := svc.verify(SessionToken(jar).value).value;
      && "email" in claims && claims["email"] != "" && svc.dbUp
    ensures r.Success? ==> r.value == svc.verify(SessionToken(jar).value).value["email"]
    ensures r.Failure? ==> r.error.cookie.None? && r.error.status in {400, 401, 500}
  {
    match SessionToken(jar)
    case None => Failure(Fail(401, "Unauthorized"))
    case Some(token) =>
      match svc.verify(token)
      case None => Failure(InternalError)
      case Some(claims) =>
        if !hasBody then Failure(InternalError)
        else if "email" !in claims || claims["email"] == "" then Failure(Fail(400, "Email is missing in token"))
        else if !svc.dbUp then Failure(InternalError)
        else Success(claims["email"])
  }

  /**
   * `findOneAndUpdate` on the account with that email: 404 when there is
   * none, otherwise the onboarding fields are overwritten and the updated
   * account is answered 200.
   */
  function SaveOnboarding(db: Db, key: string, b: OnboardingBody): (o: Outcome)
    ensures o.response.status in {200, 404}
    ensures o.response.cookie.None? && o.db.Keys == db.Keys
    ensures key !in db ==> o == Outcome(Fail(404, "User not found"), db)
    ensures key in db ==> o.db == db[key := Overwrite(db[key], b)] && o.response.status == 200
  {
    if key !in db then Outcome(Fail(404, "User not found"), db)
    else
      var a := Overwrite(db[key], b);
      Outcome(Response(200, MessageBody("Onboarding data saved", Some(a)), None), db[key := a])
  }

  /**
   * POST /api/auth/onboarding: the checks of `Authorize`, then the update of
   * the account under the (normalised) email the token names.
   */
  function Onboarding(db: Db, svc: Services, jar: CookieJar, body: Option<OnboardingBody>): (o: Outcome)
    ensures o.response.status in {200, 400, 401, 404, 500}
    ensures o.response.cookie.None?
    ensures o.response.status != 200 ==> o.db == db
    ensures o.db.Keys == db.Keys
  {
    match Authorize(svc, jar, body.Some?)
    case Failure(r) => Outcome(r, db)
    case Success(email) => SaveOnboarding(db, NormalizeEmail(email), body.value)
  }

  /** The browser's cookie jar after a response: a cookie it sets replaces the one of that name. */
  function ApplyCookie(jar: CookieJar, r: Response): (j: CookieJar)
    ensures forall n :: n in j <==> n in jar || (r.cookie.Some? && n == r.cookie.value.name)
    ensures r.cookie.Some? ==> j[r.cookie.value.name] == r.cookie.value.value
    ensures forall n :: n in jar && (r.cookie.None? || n != r.cookie.value.name) ==> j[n] == jar[n]
  {
    if r.cookie.Some? then jar[r.cookie.value.name := r.cookie.value.value] else jar
  }

  // ---------------------------------------------------------------------
  // Register

  /** A taken email is answered 400 "User already exists" and the store is unchanged. */
  lemma RegisterDuplicate(db: Db, svc: Services, id: ObjectId, b: RegisterBody)
    requires svc.dbUp && NormalizeEmail(b.email) in db
    ensures Register(db, svc, id, Some(b)) == Outcome(Fail(400, "User already exists"), db)
  {
  }

  /**
   * A registration that answers 201 or writes at all adds exactly one
   * account, under the normalised email that was not taken before; it
   * stores the hash of the password, the trimmed name, the request's role,
   * skills and sign-in method (with the schema's defaults). It answers 201
   * exactly when signing succeeds, with that account and a strict, HTTP-only
   * `devtracker_token` cookie holding the signed `{userId, email}`, and 500
   * otherwise, with the account already stored.
   */
  lemma RegisterCreates(db: Db, svc: Services, id: ObjectId, body: Option<RegisterBody>)
    requires Register(db, svc, id, body).response.status == 201 || Register(db, svc, id, body).db != db
    ensures body.Some? && body.value.password.Some? && body.value.fullName.Some?
    ensures var o := Register(db, svc, id, body);
      var b := body.value;
      var key := NormalizeEmail(b.email);
      && key !in db
      && key in o.db && o.db == db[key := o.db[key]]
      && var a := o.db[key];
      && a.id == id
      && a.email == key
      && ValidAccount(a)
      && a.password == Some(svc.hash(b.password.value))
      && a.fullName == Trim(b.fullName.value)
      && a.role == b.role.GetOr("user")
      && a.skills == b.skills.GetOr([])
      && a.aiRoadmap == "" && a.editedRoadmap == ""
      && ProviderName(a.authProvider) == b.authProvider.GetOr("credentials")
      && (o.response.status == 201 <==> svc.sign(RegisterClaims(a)).Some?)
      && (o.response.status != 201 ==> o.response == InternalError)
      && (o.response.status == 201 ==>
          && o.response.body == MessageBody("User registered", Some(a))
          && o.response.cookie == Some(SessionCookie("devtracker_token", svc.sign(RegisterClaims(a)).value, svc.production, Strict)))
  {
    var b := body.value;
    var d := RegisterDraft(b, svc.hash(b.password.value));
    CreateDocumentFields(id, d);
    assert ValidAccount(CreateDocument(id, d).value);
  }

  /**
   * Registration succeeds exactly when the body parses, the database is up,
   * the email is free, a password is given, the name and address survive
   * trimming, the sign-in method is admitted, a "credentials" account gets
   * a non-empty hash, and the new account's `{userId, email}` can be signed.
   */
  lemma RegisterSucceedsIff(db: Db, svc: Services, id: ObjectId, b: RegisterBody)
    ensures Register(db, svc, id, Some(b)).response.status == 201 <==>
      && svc.dbUp
      && NormalizeEmail(b.email) !in db
      && b.password.Some?
      && b.fullName.Some? && Trim(b.fullName.value) != ""
      && NormalizeEmail(b.email) != ""
      && ParseProvider(b.authProvider.GetOr("credentials")).Some?
      && (b.authProvider.GetOr("credentials") == "credentials" ==> svc.hash(b.password.value) != "")
      && svc.sign(map["userId" := id, "email" := NormalizeEmail(b.email)]).Some?
  {
    if svc.dbUp && NormalizeEmail(b.email) !in db && b.password.Some? {
      var h := svc.hash(b.password.value);
      var d := RegisterDraft(b, h);
      assert Register(db, svc, id, Some(b)) == Insert(db, svc, CreateDocument(id, d));
      CreateSucceedsIff(id, d);
      assert d.fullName == b.fullName && d.email == Some(b.email) && d.password == Some(h);
      assert d.authProvider.GetOr("credentials") == b.authProvider.GetOr("credentials");
      assert Present(d.password) <==> h != "";
      var created := CreateDocument(id, d);
      if created.Success? {
        CreateDocumentFields(id, d);
        assert RegisterClaims(created.value) == map["userId" := id, "email" := NormalizeEmail(b.email)];
      }
    }
  }

  /**
   * The token is signed after the document is created: when signing throws,
   * register answers 500 although the new account is already stored.
   */
  lemma RegisterSignFailureKeepsAccount(db: Db, svc: Services, id: ObjectId, b: RegisterBody)
    requires svc.dbUp && NormalizeEmail(b.email) !in db && b.password.Some?
    requires CreateDocument(id, RegisterDraft(b, svc.hash(b.password.value))).Success?
    requires svc.sign(map["userId" := id, "email" := NormalizeEmail(b.email)]).None?
    ensures var a := CreateDocument(id, RegisterDraft(b, svc.hash(b.password.value))).value;
      Register(db, svc, id, Some(b)) == Outcome(InternalError, db[NormalizeEmail(b.email) := a])
  {
    var d := RegisterDraft(b, svc.hash(b.password.value));
    var created := CreateDocument(id, d);
    assert Register(db, svc, id, Some(b)) == Insert(db, svc, created);
    CreateDocumentFields(id, d);
    var a := created.value;
    assert a.email == NormalizeEmail(b.email);
    assert RegisterClaims(a) == map["userId" := id, "email" := NormalizeEmail(b.email)];
    assert svc.sign(RegisterClaims(a)).None?;
  }

  /** Registration keeps every stored account under its own email and valid. */
  lemma RegisterKeepsStoreValid(db: Db, svc: Services, id: ObjectId, body: Option<RegisterBody>)
    requires ValidStore(db)
    ensures ValidStore(Register(db, svc, id, body).db)
  {
    var o := Register(db, svc, id, body);
    if o.db != db {
      RegisterCreates(db, svc, id, body);
      var key := NormalizeEmail(body.value.email);
      forall k | k in o.db
        ensures o.db[k].email == k && ValidAccount(o.db[k])
      {
        if k != key {
          assert o.db[k] == db[k];
        }
      }
    }
  }

  // ---------------------------------------------------------------------
  // Login

  /** An unknown email is answered 404 "User not found", with no cookie. */
  lemma LoginUnknownEmail(db: Db, svc: Services, b: LoginBody)
    requires svc.dbUp && NormalizeEmail(b.email) !in db
    ensures Login(db, svc, Some(b)) == Fail(404, "User not found")
  {
  }

  /** The lookup comes before the comparison: an unknown email is never answered 401. */
  lemma LoginUnknownNeverUnauthorized(db: Db, svc: Services, body: Option<LoginBody>)
    requires body.Some? ==> NormalizeEmail(body.value.email) !in db
    ensures Login(db, svc, body).status in {404, 500}
  {
  }

  /**
   * Login answers 200 exactly when the body parses, the database is up, the
   * account exists, both passwords are defined, they compare equal and the
   * account's `{id, email, role}` can be signed; the
   * cookie is then a lax, HTTP-only `token` holding the signed
   * `{id, email, role}` of the stored account.
   */
  lemma LoginSucceedsIff(db: Db, svc: Services, body: Option<LoginBody>)
    ensures var r := Login(db, svc, body);
      r.status == 200 <==>
        && body.Some? && svc.dbUp
        && var key := NormalizeEmail(body.value.email);
        && key in db
        && body.value.password.Some? && db[key].password.Some?
        && svc.compare(body.value.password.value, db[key].password.value)
        && svc.sign(LoginClaims(db[key])).Some?
    ensures var r := Login(db, svc, body);
      r.status == 200 ==>
        && var a := db[NormalizeEmail(body.value.email)];
        && r.body == MessageBody("Login successful", None)
        && r.cookie == Some(SessionCookie("token", svc.sign(LoginClaims(a)).value, svc.production, Lax))
  {
  }

  /** A wrong password for an existing account is answered 401 "Invalid credentials", with no cookie. */
  lemma LoginWrongPassword(db: Db, svc: Services, b: LoginBody)
    requires svc.dbUp && NormalizeEmail(b.email) in db
    requires b.password.Some? && db[NormalizeEmail(b.email)].password.Some?
    requires !svc.compare(b.password.value, db[NormalizeEmail(b.email)].password.value)
    ensures Login(db, svc, Some(b)) == Fail(401, "Invalid credentials")
  {
    var a := db[NormalizeEmail(b.email)];
    assert !svc.compare(b.password.value, a.password.value);
  }

  /**
   * An account stored with no password field makes the comparison throw:
   * 500, never a dedicated client error. No route creates such an account;
   * the delegated sign-in stores an empty password, which reaches the
   * comparison and gets its answer (`LoginWrongPassword` when it fails).
   */
  lemma LoginWithoutStoredPassword(db: Db, svc: Services, b: LoginBody)
    requires svc.dbUp && NormalizeEmail(b.email) in db && db[NormalizeEmail(b.email)].password.None?
    ensures Login(db, svc, Some(b)) == InternalError
  {
  }

  /** Signing claims that carry a non-empty email succeeds. */
  ghost predicate SignsSessions(svc: Services) {
    forall c: Claims :: "email" in c && c["email"] != "" ==> svc.sign(c).Some?
  }

  /**
   * After a registration, logging in with the same password under any
   * spelling of the address that normalises alike succeeds, provided the
   * comparison accepts a password against its own hash and session claims
   * can be signed.
   */
  lemma RegisterThenLogin(db: Db, svc: Services, id: ObjectId, b: RegisterBody, email: string)
    requires Register(db, svc, id, Some(b)).response.status == 201
    requires NormalizeEmail(email) == NormalizeEmail(b.email)
    requires b.password.Some? && svc.compare(b.password.value, svc.hash(b.password.value))
    requires SignsSessions(svc)
    ensures Login(Register(db, svc, id, Some(b)).db, svc, Some(LoginBody(email, b.password))).status == 200
  {
    RegisterCreates(db, svc, id, Some(b));
    var db2 := Register(db, svc, id, Some(b)).db;
    var key := NormalizeEmail(email);
    assert key in db2 && db2[key].password == Some(svc.hash(b.password.value));
    assert svc.sign(LoginClaims(db2[key])).Some?;
    LoginSucceedsIff(db2, svc, Some(LoginBody(email, b.password)));
  }

  // ---------------------------------------------------------------------
  // Onboarding

  /** Without a non-empty `devtracker_token` cookie the answer is 401 and nothing is written. */
  lemma OnboardingUnauthorizedIff(db: Db, svc: Services, jar: CookieJar, body: Option<OnboardingBody>)
    ensures Onboarding(db, svc, jar, body).response.status == 401 <==>
      RegisterCookieName !in jar || jar[RegisterCookieName] == ""
    ensures SessionToken(jar).None? ==> Onboarding(db, svc, jar, body) == Outcome(Fail(401, "Unauthorized"), db)
  {
  }

  /** A token that fails verification makes `verifyToken` throw: 500, and nothing is written. */
  lemma OnboardingVerifyFails(db: Db, svc: Services, jar: CookieJar, body: Option<OnboardingBody>)
    requires SessionToken(jar).Some? && svc.verify(SessionToken(jar).value).None?
    ensures Onboarding(db, svc, jar, body) == Outcome(InternalError, db)
  {
  }

  /** A verified token whose claims carry no email is answered 400 and nothing is written. */
  lemma OnboardingEmailMissing(db: Db, svc: Services, jar: CookieJar, b: OnboardingBody, claims: Claims)
    requires SessionToken(jar).Some? && svc.verify(SessionToken(jar).value) == Some(claims)
    requires "email" !in claims || claims["email"] == ""
    ensures Onboarding(db, svc, jar, Some(b)) == Outcome(Fail(400, "Email is missing in token"), db)
  {
  }

  /** No account with the token's email: 404 "User not found" and nothing is written. */
  lemma OnboardingUnknownAccount(db: Db, svc: Services, jar: CookieJar, b: OnboardingBody, claims: Claims)
    requires SessionToken(jar).Some? && svc.verify(SessionToken(jar).value) == Some(claims)
    requires "email" in claims && claims["email"] != "" && svc.dbUp
    requires NormalizeEmail(claims["email"]) !in db
    ensures Onboarding(db, svc, jar, Some(b)) == Outcome(Fail(404, "User not found"), db)
  {
  }

  /**
   * A successful save overwrites only the onboarding fields of one existing
   * account, the one under the token's email; every other account and every
   * other field is unchanged, and the response carries the updated account.
   */
  lemma OnboardingFrame(db: Db, svc: Services, jar: CookieJar, body: Option<OnboardingBody>)
    requires Onboarding(db, svc, jar, body).response.status == 200
    ensures body.Some? && SessionToken(jar).Some? && svc.verify(SessionToken(jar).value).Some?
    ensures var o := Onboarding(db, svc, jar, body);
      var key := NormalizeEmail(svc.verify(SessionToken(jar).value).value["email"]);
      && key in db
      && o.db == db[key := Overwrite(db[key], body.value)]
      && o.response.body == MessageBody("Onboarding data saved", Some(o.db[key]))
  {
  }

  /** Sending the same onboarding request twice leaves the store as sending it once. */
  lemma OnboardingIdempotent(db: Db, svc: Services, jar: CookieJar, body: Option<OnboardingBody>)
    ensures var once := Onboarding(db, svc, jar, body);
      Onboarding(once.db, svc, jar, body) == once
  {
    match Authorize(svc, jar, body.Some?)
    case Failure(_) =>
    case Success(email) =>
      var key := NormalizeEmail(email);
      if key in db {
        var a := Overwrite(db[key], body.value);
        assert Overwrite(a, body.value) == a;
        assert db[key := a][key := a] == db[key := a];
      }
  }

  /** Onboarding never touches the fields the schema validates, so a valid store stays valid. */
  lemma OnboardingKeepsStoreValid(db: Db, svc: Services, jar: CookieJar, body: Option<OnboardingBody>)
    requires ValidStore(db)
    ensures ValidStore(Onboarding(db, svc, jar, body).db)
  {
    match Authorize(svc, jar, body.Some?)
    case Failure(_) =>
    case Success(email) =>
      var key := NormalizeEmail(email);
      if key in db {
        var a := Overwrite(db[key], body.value);
        assert a.email == db[key].email && ValidAccount(a);
        var db2 := db[key := a];
        assert Onboarding(db, svc, jar, body).db == db2;
        forall k | k in db2
          ensures db2[k].email == k && ValidAccount(db2[k])
        {
          if k != key {
            assert db2[k] == db[k];
          }
        }
      }
  }

  // ---------------------------------------------------------------------
  // The connection as imported

  /**
   * The three handlers import `connectToDB` from the module that exports
   * only the native client promise, so the call throws. With the connection
   * failing, register and login always answer 500 and write nothing, and
   * onboarding never answers 200 and writes nothing.
   */
  lemma UnresolvedConnectionFailsRoutes(
    db: Db, svc: Services, id: ObjectId, rb: Option<RegisterBody>, lb: Option<LoginBody>,
    jar: CookieJar, ob: Option<OnboardingBody>)
    requires !svc.dbUp
    ensures Register(db, svc, id, rb) == Outcome(InternalError, db)
    ensures Login(db, svc, lb) == InternalError
    ensures Onboarding(db, svc, jar, ob).db == db
    ensures Onboarding(db, svc, jar, ob).response.status in {400, 401, 500}
  {
  }

  // ---------------------------------------------------------------------
  // Sessions across routes

  /**
   * Login names its cookie `token`, onboarding reads only
   * `devtracker_token`: a browser whose only session came from login is
   * always answered 401 by onboarding, whatever it sends.
   */
  lemma LoginOnlySessionUnauthorized(
    db: Db, svc: Services, body: Option<LoginBody>, jar: CookieJar, db2: Db, ob: Option<OnboardingBody>)
    requires RegisterCookieName !in jar
    ensures var session := ApplyCookie(jar, Login(db, svc, body));
      Onboarding(db2, svc, session, ob) == Outcome(Fail(401, "Unauthorized"), db2)
  {
    var r := Login(db, svc, body);
    if r.cookie.Some? {
      LoginSucceedsIff(db, svc, body);
      assert r.cookie.value.name == LoginCookieName;
    }
    var session := ApplyCookie(jar, r);
    assert RegisterCookieName !in session;
    OnboardingUnauthorizedIff(db2, svc, session, ob);
  }

  /**
   * A token signed for claims with a non-empty email is non-empty and
   * verifies to claims with that same email; the verifier may add or change
   * other claims (an issue or expiry time, say).
   */
  ghost predicate TokensKeepEmail(svc: Services) {
    forall c: Claims :: "email" in c && c["email"] != "" && svc.sign(c).Some? ==>
      && svc.sign(c).value != ""
      && svc.verify(svc.sign(c).value).Some?
      && "email" in svc.verify(svc.sign(c).value).value
      && svc.verify(svc.sign(c).value).value["email"] == c["email"]
  }

  /**
   * The cookie register sets is accepted by onboarding: right after a
   * registration, an onboarding request from that browser saves its data
   * into the new account.
   */
  lemma RegisterThenOnboarding(
    db: Db, svc: Services, id: ObjectId, rb: RegisterBody, jar: CookieJar, ob: OnboardingBody)
    requires TokensKeepEmail(svc)
    requires Register(db, svc, id, Some(rb)).response.status == 201
    ensures var reg := Register(db, svc, id, Some(rb));
      Onboarding(reg.db, svc, ApplyCookie(jar, reg.response), Some(ob)).response.status == 200
  {
    var reg := Register(db, svc, id, Some(rb));
    RegisterCreates(db, svc, id, Some(rb));
    var key := NormalizeEmail(rb.email);
    var a := reg.db[key];
    var claims := RegisterClaims(a);
    var session := ApplyCookie(jar, reg.response);
    assert session[RegisterCookieName] == svc.sign(claims).value;
    assert svc.verify(svc.sign(claims).value).value["email"] == key;
    assert Authorize(svc, session, true) == Success(key);
    NormalizeEmailIdempotent(rb.email);
  }
}
