/**
 * The three route handlers as the step-by-step procedures they are: each
 * check either returns early with its response or lets the handler go on,
 * and the user collection is a map the register and onboarding handlers
 * update in place. Each handler is proved to answer, and to leave the
 * collection, exactly as the decision procedure in `AuthRoutes` says.
 */
module RouteHandlers {
  import opened Wrappers
  import opened UserModel
  import opened AuthRoutes

  /** The user collection the handlers share. */
  class UserStore {
    var accounts: Db

    /** Every account sits under its own email and satisfies the schema. */
    ghost predicate Valid()
      reads this
    {
      ValidStore(accounts)
    }

    /** An empty collection. */
    constructor ()
      ensures accounts == map[] && Valid()
    {
      accounts := map[];
    }

    /** POST /api/auth/register. */
    method Register(svc: Services, id: ObjectId, body: Option<RegisterBody>) returns (resp: Response)
      requires Valid()
      modifies this
      ensures Valid()
      ensures Outcome(resp, accounts) == AuthRoutes.Register(old(accounts), svc, id, body)
    {
      RegisterKeepsStoreValid(accounts, svc, id, body);
      if body.None? || !svc.dbUp {
        return InternalError;
      }
      var b := body.value;
      if NormalizeEmail(b.email) in accounts {
        return Fail(400, "User already exists");
      }
      if b.password.None? {
        return InternalError;
      }
      var hashed := svc.hash(b.password.value);
      var created := CreateDocument(id, RegisterDraft(b, hashed));
      if created.Failure? {
        return InternalError;
      }
      var user := created.value;
      accounts := accounts[user.email := user];
      var token := svc.sign(RegisterClaims(user));
      if token.None? {
        return InternalError;
      }
      resp := Response(201, MessageBody("User registered", Some(user)),
                       Some(SessionCookie(RegisterCookieName, token.value, svc.production, Strict)));
    }

    /** POST /api/auth/login: it reads the collection and changes nothing. */
    method Login(svc: Services, body: Option<LoginBody>) returns (resp: Response)
      ensures resp == AuthRoutes.Login(accounts, svc, body)
    {
      if body.None? || !svc.dbUp {
        return InternalError;
      }
      var b := body.value;
      var key := NormalizeEmail(b.email);
      if key !in accounts {
        return Fail(404, "User not found");
      }
      var user := accounts[key];
      if b.password.None? || user.password.None? {
        return InternalError;
      }
      var isMatch := svc.compare(b.password.value, user.password.value);
      if !isMatch {
        return Fail(401, "Invalid credentials");
      }
      assert AuthRoutes.Login(accounts, svc, body) == LoginSession(svc, user);
      var token := svc.sign(LoginClaims(user));
      if token.None? {
        return InternalError;
      }
      resp := Response(200, MessageBody("Login successful", None),
                       Some(SessionCookie(LoginCookieName, token.value, svc.production, Lax)));
    }

    /** POST /api/auth/onboarding. */
    method SaveOnboarding(svc: Services, jar: CookieJar, body: Option<OnboardingBody>) returns (resp: Response)
      requires Valid()
      modifies this
      ensures Valid()
      ensures Outcome(resp, accounts) == Onboarding(old(accounts), svc, jar, body)
    {
      OnboardingKeepsStoreValid(accounts, svc, jar, body);
      if RegisterCookieName !in jar || jar[RegisterCookieName] == "" {
        return Fail(401, "Unauthorized");
      }
      var decoded := svc.verify(jar[RegisterCookieName]);
      if decoded.None? {
        return InternalError;
      }
      var claims := decoded.value;
      if body.None? {
        return InternalError;
      }
      if "email" !in claims || claims["email"] == "" {
        return Fail(400, "Email is missing in token");
      }
      if !svc.dbUp {
        return InternalError;
      }
      var key := NormalizeEmail(claims["email"]);
      if key !in accounts {
        return Fail(404, "User not found");
      }
      var user := Overwrite(accounts[key], body.value);
      accounts := accounts[key := user];
      resp := Response(200, MessageBody("Onboarding data saved", Some(user)), None);
    }
  }
}
