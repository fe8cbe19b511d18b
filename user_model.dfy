/**
 * The account record and the schema that guards it: required fields, the
 * trim and lower-case setters, the conditional password requirement, the
 * sign-in method enumeration and the defaults applied when a document is
 * created.
 */
module UserModel {
  import opened Wrappers
  import opened Strings

  /** The sign-in methods the schema's enumeration admits. */
  datatype AuthProvider = Credentials | Google | Github

  /** The stored spelling of a sign-in method. */
  function ProviderName(p: AuthProvider): string {
    match p
    case Credentials => "credentials"
    case Google => "google"
    case Github => "github"
  }

  /** The enumeration check: the sign-in method a string names, if it names one. */
  function ParseProvider(s: string): (r: Option<AuthProvider>)
    ensures r.Some? ==> ProviderName(r.value) == s
  {
    if s == "credentials" then Some(Credentials)
    else if s == "google" then Some(Google)
    else if s == "github" then Some(Github)
    else None
  }

  /** Every sign-in method passes the enumeration check under its own name, and no two share a name. */
  lemma ProviderNameRoundTrip(p: AuthProvider, q: AuthProvider)
    ensures ParseProvider(ProviderName(p)) == Some(p)
    ensures ProviderName(p) == ProviderName(q) ==> p == q
  {
  }

  /** A document identifier, as it appears once serialised. */
  type ObjectId = string

  /** A stored account. */
  datatype Account = Account(
    id: ObjectId,
    fullName: string,
    email: string,
    password: Option<string>,
    role: string,
    skills: seq<string>,
    aiRoadmap: string,
    editedRoadmap: string,
    authProvider: AuthProvider)

  /** The values handed to document creation; `None` is a field the caller left undefined. */
  datatype Draft = Draft(
    fullName: Option<string>,
    email: Option<string>,
    password: Option<string>,
    role: Option<string>,
    skills: Option<seq<string>>,
    aiRoadmap: Option<string>,
    editedRoadmap: Option<string>,
    authProvider: Option<string>)

  /** The schema paths whose validators can reject a document. */
  datatype Path = FullNamePath | EmailPath | PasswordPath | AuthProviderPath

  /** The email setters: lower-cased, then trimmed. */
  function NormalizeEmail(s: string): (r: string)
    ensures IsLowerCase(r) && IsTrimmed(r)
  {
    LowerTrimCommute(s);
    LowerFacts(Trim(s));
    Trim(Lower(s))
  }

  /** Normalising is idempotent and leaves an already normal address alone. */
  lemma NormalizeEmailIdempotent(s: string)
    ensures NormalizeEmail(NormalizeEmail(s)) == NormalizeEmail(s)
    ensures IsLowerCase(s) && IsTrimmed(s) ==> NormalizeEmail(s) == s
  {
    var n := NormalizeEmail(s);
    LowerFacts(n);
    TrimOfTrimmed(n);
    if IsLowerCase(s) && IsTrimmed(s) {
      LowerFacts(s);
      TrimOfTrimmed(s);
    }
  }

  /** Mongoose's `required` check on a string path: the value is defined and not empty. */
  predicate Present(v: Option<string>) {
    v.Some? && v.value != ""
  }

  /** The record invariants the schema establishes for every stored account. */
  predicate ValidAccount(a: Account) {
    && a.fullName != "" && IsTrimmed(a.fullName)
    && a.email != "" && IsLowerCase(a.email) && IsTrimmed(a.email)
    && (a.authProvider == Credentials ==> Present(a.password))
  }

  /**
   * Whether the validator of path `p` rejects the draft, after the setters
   * and the sign-in method's default have been applied.
   */
  predicate PathFails(d: Draft, p: Path) {
    var provider := d.authProvider.GetOr("credentials");
    match p
    case FullNamePath => d.fullName.None? || Trim(d.fullName.value) == ""
    case EmailPath => d.email.None? || NormalizeEmail(d.email.value) == ""
    case AuthProviderPath => ParseProvider(provider).None?
    case PasswordPath => provider == "credentials" && !Present(d.password)
  }

  /**
   * The paths that fail validation. None fails exactly when the name and the
   * address survive their setters, the (defaulted) sign-in method is
   * admitted, and a "credentials" account has a non-empty password.
   */
  function CreateErrors(d: Draft): (errs: set<Path>)
    ensures forall p :: p in errs <==> PathFails(d, p)
    ensures errs == {} <==>
      && d.fullName.Some? && Trim(d.fullName.value) != ""
      && d.email.Some? && NormalizeEmail(d.email.value) != ""
      && ParseProvider(d.authProvider.GetOr("credentials")).Some?
      && (d.authProvider.GetOr("credentials") == "credentials" ==> Present(d.password))
  {
    var errs := set p | p in {FullNamePath, EmailPath, PasswordPath, AuthProviderPath} && PathFails(d, p);
    assert PathFails(d, FullNamePath) ==> FullNamePath in errs;
    assert PathFails(d, EmailPath) ==> EmailPath in errs;
    assert PathFails(d, PasswordPath) ==> PasswordPath in errs;
    assert PathFails(d, AuthProviderPath) ==> AuthProviderPath in errs;
    errs
  }

  /**
   * `User.create`: the setters and defaults are applied, the validators run,
   * and either the document or the set of failing paths comes back.
   */
  function CreateDocument(id: ObjectId, d: Draft): (r: Result<Account, set<Path>>)
    ensures r.Failure? ==> r.error != {} && r.error == CreateErrors(d)
    ensures r.Success? ==> ValidAccount(r.value) && r.value.id == id
  {
    var errs := CreateErrors(d);
    if errs != {} then Failure(errs)
    else
      assert FullNamePath !in errs && EmailPath !in errs && AuthProviderPath !in errs && PasswordPath !in errs;
      var provider := ParseProvider(d.authProvider.GetOr("credentials")).value;
      Success(Account(
        id,
        Trim(d.fullName.value),
        NormalizeEmail(d.email.value),
        d.password,
        d.role.GetOr("user"),
        d.skills.GetOr([]),
        d.aiRoadmap.GetOr(""),
        d.editedRoadmap.GetOr(""),
        provider))
  }

  /** A document is created exactly when no path fails validation. */
  lemma CreateSucceedsIffNoFailure(id: ObjectId, d: Draft)
    ensures CreateDocument(id, d).Success? <==> forall p :: !PathFails(d, p)
  {
    var errs := CreateErrors(d);
    if forall p :: !PathFails(d, p) {
      assert errs == {};
    } else {
      var p :| PathFails(d, p);
      assert p in errs;
    }
  }

  /**
   * Creation succeeds exactly when the trimmed name and the normalised
   * address are non-empty, the sign-in method (defaulted) is admitted, and a
   * "credentials" account has a non-empty password.
   */
  lemma CreateSucceedsIff(id: ObjectId, d: Draft)
    ensures CreateDocument(id, d).Success? <==>
      && d.fullName.Some? && Trim(d.fullName.value) != ""
      && d.email.Some? && NormalizeEmail(d.email.value) != ""
      && ParseProvider(d.authProvider.GetOr("credentials")).Some?
      && (d.authProvider.GetOr("credentials") == "credentials" ==> Present(d.password))
  {
    CreateSucceedsIffNoFailure(id, d);
    if forall p :: !PathFails(d, p) {
      assert !PathFails(d, FullNamePath) && !PathFails(d, EmailPath);
      assert !PathFails(d, AuthProviderPath) && !PathFails(d, PasswordPath);
    } else {
      var p :| PathFails(d, p);
    }
  }

  /**
   * A created document carries the setters' results, the given values, and
   * the defaults for what was left undefined: role "user", no skills, empty
   * roadmaps and the "credentials" sign-in method.
   */
  lemma CreateDocumentFields(id: ObjectId, d: Draft)
    requires CreateDocument(id, d).Success?
    ensures var a := CreateDocument(id, d).value;
      && d.fullName.Some? && a.fullName == Trim(d.fullName.value)
      && d.email.Some? && a.email == NormalizeEmail(d.email.value)
      && a.password == d.password
      && a.role == (if d.role.Some? then d.role.value else "user")
      && a.skills == (if d.skills.Some? then d.skills.value else [])
      && a.aiRoadmap == (if d.aiRoadmap.Some? then d.aiRoadmap.value else "")
      && a.editedRoadmap == (if d.editedRoadmap.Some? then d.editedRoadmap.value else "")
      && ProviderName(a.authProvider) == (if d.authProvider.Some? then d.authProvider.value else "credentials")
  {
    CreateSucceedsIffNoFailure(id, d);
    assert !PathFails(d, FullNamePath) && !PathFails(d, EmailPath) && !PathFails(d, AuthProviderPath);
  }

  /**
   * With a usable name and address and an admitted sign-in method, creation
   * succeeds exactly when the method is not "credentials" or a non-empty
   * password is given.
   */
  lemma PasswordRequiredIffCredentials(id: ObjectId, d: Draft)
    requires d.fullName.Some? && Trim(d.fullName.value) != ""
    requires d.email.Some? && NormalizeEmail(d.email.value) != ""
    requires ParseProvider(d.authProvider.GetOr("credentials")).Some?
    ensures CreateDocument(id, d).Success? <==>
      ParseProvider(d.authProvider.GetOr("credentials")) != Some(Credentials) || Present(d.password)
  {
    var errs := CreateErrors(d);
    assert !PathFails(d, FullNamePath) && !PathFails(d, EmailPath) && !PathFails(d, AuthProviderPath);
    if !PathFails(d, PasswordPath) {
      assert forall p :: !PathFails(d, p);
      assert errs == {};
    }
  }
}
