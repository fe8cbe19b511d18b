# DevTracker onboarding and account core, modelled in Dafny

DevTracker is a Next.js application in which a developer registers, signs in and walks
through a five-step onboarding wizard. In the wizard they choose a role, pick skills,
generate a canned roadmap and edit it. This project models the logic under those
screens:

- **Roadmap data** (`OnboardingData`, `onboarding_data.dfy`)
  - The step titles and the role-to-skills table.
  - `generateFakeRoadmap`, which picks one of four fixed roadmap texts by a
    case-sensitive substring test on the role. The frontend template has two slots that
    depend on the chosen skills.
- **Onboarding wizard** (`OnboardingWizard`, `onboarding_wizard.dfy`)
  - The page's state is a `Wizard` class with fields `step`, `form`, `customRole` and
    `customSkill`.
  - Each UI handler is a method.
  - The derived values are functions: the effective roadmap, the offered skills and the
    Next guard.
- **Account schema** (`UserModel`, `user_model.dfy`)
  - The Mongoose user schema becomes a normalising, validating document constructor
    (`CreateDocument`) and a record invariant (`ValidAccount`).
  - It covers the required fields, the trim and lower-case setters, the password that
    is required only for "credentials" accounts, the sign-in method enumeration and the
    defaults.
- **Route handlers** (`AuthRoutes`, `auth_routes.dfy`)
  - Register, login and onboarding are decision procedures over a store: a map from the
    normalised email to the account.
  - Each returns the HTTP status, the JSON body, the cookie it sets and the new store.
- **Imperative handlers** (`RouteHandlers`, `route_handlers.dfy`)
  - The same three handlers, written as the early-return procedures they are, as
    methods of a `UserStore` class.
  - The store is updated in place. Each method is proved to agree with the decision
    procedure and to keep the store valid.
- **Support modules**
  - `Wrappers`: `Option` and `Result`.
  - `Strings`: substring occurrence, JavaScript's `includes`, `toLowerCase` and `trim`.
  - `Lists`: duplicate-freedom, `filter(s => s !== x)` and append.

The external pieces are uninterpreted parameters, gathered in the `Services` record:

- bcrypt `hash` and `compare`;
- `signToken` and `verifyToken`;
- whether the database connection succeeds;
- whether the deployment is production.

Behaviours of the code that the model keeps as written:

- **Login against an account with no password field** would answer 500: `bcrypt.compare`
  receives `undefined` and throws (app/api/auth/login/route.ts:26, 56-60;
  `LoginWithoutStoredPassword`). No route creates such an account. The delegated
  sign-in stores an empty password, so login reaches the comparison and gets its
  answer: 401 when it fails (`LoginWrongPassword`), as bcryptjs does for a string
  that is not a hash.
- **Cookie names.** Register writes the session cookie `devtracker_token`, login writes
  `token`, and onboarding reads only `devtracker_token`; the model keeps both names
  (`LoginOnlySessionUnauthorized`).
- **The register response** carries the stored account, password hash included
  (`RegisterCreates`).
- **Signing after storing.** Register signs its token after the account is created, so a
  signing failure answers 500 with the account already stored
  (`RegisterSignFailureKeepsAccount`).

## Model

| member | source | states |
|---|---|---|
| OnboardingData.StepsDataShape | data/onboardingData.ts:3-9 | There are exactly five step titles and they are distinct, so `totalSteps` is 5. |
| OnboardingData.RoleKeysMatchTable | data/onboardingData.ts:11-24 | The rendered role list names exactly the keys of the role table, each once. |
| OnboardingData.SkillListDistinct | data/onboardingData.ts:11-24 | No role's skill list names a skill twice. |
| OnboardingData.RoleKeysLowerCase | data/onboardingData.ts:11-24 | Every role key is in lower case. |
| OnboardingData.RoleSkillMapWellFormed | data/onboardingData.ts:11-24 | Every key of the table is lower case and every skill list is duplicate-free. |
| OnboardingData.GenerateFakeRoadmap | data/onboardingData.ts:26-108 | The roadmap function is total and never returns the empty text. |
| OnboardingData.GenerateFakeRoadmapCases | data/onboardingData.ts:26-108 | The first of "frontend", "backend", "devops" occurring in the role picks the template, otherwise the placeholder; the result is always one of the seven possible texts (four frontend fillings, backend, devops, placeholder). |
| OnboardingData.NonFrontendIgnoresSkills | data/onboardingData.ts:56-107 | For a role without "frontend" the result does not depend on the skills. |
| OnboardingData.SlotsOccur | data/onboardingData.ts:34-39 | Both slot values appear in the filled-in frontend template. |
| OnboardingData.NoReactInVueTemplate | data/onboardingData.ts:35 | With "Vue.js" in the framework slot, "React" appears nowhere in the template. |
| OnboardingData.NoVueInReactTemplate | data/onboardingData.ts:35 | With "React" in the framework slot, "Vue.js" appears nowhere in the template. |
| OnboardingData.NoTailwindInSassTemplate | data/onboardingData.ts:39 | With "SASS / SCSS" in the styling slot, "Tailwind CSS" appears nowhere in the template. |
| OnboardingData.NoSassInTailwindTemplate | data/onboardingData.ts:39 | With "Tailwind CSS" in the styling slot, "SASS / SCSS" appears nowhere in the template. |
| OnboardingData.FrontendMentions | data/onboardingData.ts:28-54 | Each of the four slot names occurs in the frontend template exactly when it fills its slot. |
| OnboardingData.FrontendSlots | data/onboardingData.ts:35-39 | For a frontend role, "React" occurs in the roadmap iff it is a chosen skill, else "Vue.js" (never both, never neither); likewise "Tailwind CSS" / "SASS / SCSS". |
| OnboardingData.FrameworkSlot | data/onboardingData.ts:35 | The framework slot is "React" exactly when "React" is a chosen skill, and "Vue.js" otherwise. |
| OnboardingData.StylingSlot | data/onboardingData.ts:39 | The styling slot is "Tailwind CSS" exactly when that is a chosen skill, and "SASS / SCSS" otherwise. |
| OnboardingData.OutsideCategories | data/onboardingData.ts:27-107 | A role lacking "frontend", "backend" and "devops" gets the placeholder. |
| OnboardingData.NoDevOpsInFullstack | data/onboardingData.ts:83 | "devops" does not occur in "fullstack developer". |
| OnboardingData.NoFrontendInHyphenated | data/onboardingData.ts:27 | "frontend" does not occur in "front-end developer". |
| OnboardingData.HyphenatedFrontendGetsPlaceholder | data/onboardingData.ts:27-107 | The role "front-end developer" gets the placeholder, not the frontend template. |
| OnboardingData.FullstackGetsPlaceholder | data/onboardingData.ts:107 | The table role "fullstack developer" gets the placeholder. |
| OnboardingData.MobileGetsPlaceholder | data/onboardingData.ts:107 | The table role "mobile developer" gets the placeholder. |
| OnboardingData.DataScientistGetsPlaceholder | data/onboardingData.ts:107 | The table role "data scientist" gets the placeholder. |
| OnboardingData.AiMlGetsPlaceholder | data/onboardingData.ts:107 | The table role "ai/ml engineer" gets the placeholder. |
| OnboardingData.CapitalisedRoleGetsPlaceholder | data/onboardingData.ts:27 | Matching is case-sensitive: "Frontend Developer" gets the placeholder. |
| OnboardingData.FrontendRoleGetsFrontendTemplate | data/onboardingData.ts:27-55 | "frontend developer" gets the frontend template filled from the skills. |
| OnboardingData.BackendRoleGetsBackendTemplate | data/onboardingData.ts:56-82 | "backend developer" gets the backend template. |
| OnboardingData.DevOpsRoleGetsDevOpsTemplate | data/onboardingData.ts:83-106 | "devops engineer" gets the DevOps template. |
| OnboardingWizard.Get | app/auth/onboarding/page.tsx:19-24 | Each form key holds a value of its field's kind (text, or a list for skills). |
| OnboardingWizard.Save | app/auth/onboarding/page.tsx:28-29 | `saveData(key, v)` changes field `key` to `v` and leaves every other field as it was. |
| OnboardingWizard.SaveLaws | app/auth/onboarding/page.tsx:28-29 | Saving a field's own value changes nothing; saving the same value twice equals saving it once. |
| OnboardingWizard.EffectiveRoadmap | app/auth/onboarding/page.tsx:31 | The shown roadmap is either the edited or the generated text. |
| OnboardingWizard.EffectiveRoadmapCases | app/auth/onboarding/page.tsx:31 | The effective roadmap is the edit when non-empty, else the generated text, and is empty only when both are. |
| OnboardingWizard.TableKeysNotInherited | app/auth/onboarding/page.tsx:32 | No role of the table is a key every JavaScript object inherits. |
| OnboardingWizard.SkillsForRoleAsWritten | app/auth/onboarding/page.tsx:32 | The lookup as written fails exactly when the lower-cased role is an inherited key. |
| OnboardingWizard.ConstructorRoleBreaksSkillStep | app/auth/onboarding/page.tsx:32 | The custom role "constructor" makes the written lookup fail. |
| OnboardingWizard.SkillsForRole | app/auth/onboarding/page.tsx:32 | The offered skills are the table's list for the lower-cased role, or none for an unknown role; they are duplicate-free. |
| OnboardingWizard.SkillsForRoleAgrees | app/auth/onboarding/page.tsx:32 | The corrected lookup agrees with the written one on every role that is not an inherited key. |
| OnboardingWizard.NextBlocked | app/auth/onboarding/page.tsx:232-237 | Next can be disabled only on steps 1 to 4. |
| OnboardingWizard.GuardCompletesStep | app/auth/onboarding/page.tsx:232-237 | On steps 1-4, Next is enabled exactly when the current step's data is present (role, a skill, a generated roadmap, an effective roadmap). |
| OnboardingWizard.EditStepNeverBlocks | app/auth/onboarding/page.tsx:236 | Once a roadmap has been generated, the edit step never disables Next. |
| OnboardingWizard.Wizard.constructor | app/auth/onboarding/page.tsx:14-24 | The wizard starts at step 1 with an empty form and empty custom inputs. |
| OnboardingWizard.Wizard.StepTitle | app/auth/onboarding/page.tsx:40 | The title shown is one of the step titles. |
| OnboardingWizard.Wizard.RoadmapValue | app/auth/onboarding/page.tsx:31 | The shown roadmap is empty only when both the edit and the generated text are. |
| OnboardingWizard.Wizard.OfferedSkills | app/auth/onboarding/page.tsx:107 | The checkboxes offer the table's list for the lower-cased role, or nothing. This uses the corrected lookup, so the class does not fail on the role "constructor" as the page does; only `SkillsForRoleAsWritten` has the written behaviour. |
| OnboardingWizard.Wizard.NextStep | app/auth/onboarding/page.tsx:26 | Next advances one step, never past the last; the step changes exactly when the Next button is rendered (`NextShown`, page.tsx:229); the step stays in range, the skills stay distinct and the completed steps keep their data. |
| OnboardingWizard.Wizard.PrevStep | app/auth/onboarding/page.tsx:27 | Back goes one step back, never before the first; the step changes exactly when the Back button is rendered (`BackShown`, page.tsx:221); the invariant is kept. |
| OnboardingWizard.Wizard.SaveData | app/auth/onboarding/page.tsx:28-29 | The form becomes `Save(old form, key, value)`. |
| OnboardingWizard.Wizard.ChooseRole | app/auth/onboarding/page.tsx:63-66 | A role button sets the role to that table key and nothing else. |
| OnboardingWizard.Wizard.ChooseOtherRole | app/auth/onboarding/page.tsx:78-79 | "Other" sets the role to the custom role typed so far. |
| OnboardingWizard.Wizard.TypeCustomRole | app/auth/onboarding/page.tsx:88-95 | Typing a custom role sets both the input and the role. |
| OnboardingWizard.Wizard.ToggleSkill | app/auth/onboarding/page.tsx:113-119 | Ticking appends the skill; unticking gives `Without(skills, skill)`, which removes it and keeps the other skills in order; other fields unchanged; skills stay distinct. |
| Lists.Without | app/auth/onboarding/page.tsx:118 | The filter removes every occurrence of the value, changes nothing when the value is absent, removes nothing else (multiset), and keeps a duplicate-free list duplicate-free. |
| Lists.WithoutConcat | app/auth/onboarding/page.tsx:118 | The filter distributes over concatenation, so it keeps the order of the kept elements. |
| Lists.WithoutSingle | app/auth/onboarding/page.tsx:118 | Removing the single occurrence from `a + [x] + b` gives `a + b`. |
| OnboardingWizard.Wizard.TypeCustomSkill | app/auth/onboarding/page.tsx:130 | Typing sets the custom-skill input. |
| OnboardingWizard.Wizard.AddCustomSkill | app/auth/onboarding/page.tsx:134-140 | A non-empty custom skill not yet chosen is appended and the input cleared; otherwise nothing changes; skills stay distinct. |
| OnboardingWizard.Wizard.Generate | app/auth/onboarding/page.tsx:155-162 | The generated roadmap becomes `GenerateFakeRoadmap(lower-cased role, skills)`, which is non-empty. |
| OnboardingWizard.Wizard.EditAiRoadmap | app/auth/onboarding/page.tsx:167-170 | Editing on step 3 replaces the generated text only. |
| OnboardingWizard.Wizard.EditRoadmap | app/auth/onboarding/page.tsx:179-182 | Editing on step 4 replaces the edit; the shown roadmap is the edit, or the generated text when the edit is cleared. |
| UserModel.ParseProvider | models/User.ts:53-57 | The enumeration admits only "credentials", "google", "github", each meaning its own name. |
| UserModel.ProviderNameRoundTrip | models/User.ts:53-57 | Every sign-in method passes the enumeration under its own name and no two share a name. |
| UserModel.NormalizeEmail | models/User.ts:24-30 | The stored address is lower case and trimmed. |
| UserModel.NormalizeEmailIdempotent | models/User.ts:24-30 | Normalising twice equals normalising once, and a normal address is left alone. |
| UserModel.CreateErrors | models/User.ts:17-60 | No path is reported exactly when the trimmed name and the normalised address are non-empty, the defaulted sign-in method is admitted, and a "credentials" account has a non-empty password. |
| UserModel.CreateDocument | models/User.ts:17-60 | Creation fails with the non-empty set of failing paths, or yields a schema-valid account with the given identifier. |
| UserModel.CreateSucceedsIffNoFailure | models/User.ts:17-60 | Creation succeeds exactly when no validator fails. |
| UserModel.CreateSucceedsIff | models/User.ts:19-57 | Creation succeeds iff name and address are non-empty after the setters, the defaulted sign-in method is admitted, and a "credentials" account has a non-empty password. |
| UserModel.CreateDocumentFields | models/User.ts:19-57 | A created account holds the trimmed name, the normalised address, the given password, and the given role, skills, roadmaps and sign-in method or their defaults ("user", [], "", "", "credentials"). |
| UserModel.PasswordRequiredIffCredentials | models/User.ts:31-36 | With the other paths valid, creation succeeds iff the sign-in method is not "credentials" or a non-empty password is given. |
| AuthRoutes.SessionCookie | app/api/auth/register/route.ts:65-71 | The session cookie is HTTP-only, path "/", 604800 seconds, with the given name, token, secure flag and SameSite policy. |
| AuthRoutes.RegisterClaims | app/api/auth/register/route.ts:53 | Register signs exactly `{userId, email}` of the new account. |
| AuthRoutes.LoginClaims | app/api/auth/login/route.ts:34-38 | Login signs exactly `{id, email, role}` of the stored account. |
| AuthRoutes.RegisterDraft | app/api/auth/register/route.ts:20-50 | Creation receives the hash as password, the request's email, and "credentials" when no sign-in method is sent. |
| AuthRoutes.Register | app/api/auth/register/route.ts:17-80 | Register answers 201, 400 or 500 and sets a cookie only on 201; a 400 writes nothing, and a write happens only with a parsed body, a connection and a free email. |
| AuthRoutes.Insert | app/api/auth/register/route.ts:43-79 | A validation failure is 500 with the store unchanged; a created account is stored under its email, then answered 201 exactly when signing succeeds, and 500 otherwise. |
| AuthRoutes.Login | app/api/auth/login/route.ts:9-61 | Login answers 200, 401, 404 or 500 and sets a cookie only on 200. |
| AuthRoutes.LoginSession | app/api/auth/login/route.ts:34-60 | After a match, login answers 200 with a lax `token` cookie holding the signed `{id, email, role}` exactly when signing succeeds, and 500 otherwise. |
| AuthRoutes.Overwrite | app/api/auth/onboarding/route.ts:37-41 | Each defined onboarding field replaces the stored one, each undefined one keeps its stored value, and no other field changes. |
| AuthRoutes.SessionToken | app/api/auth/onboarding/route.ts:14-17 | A token is read exactly when a non-empty `devtracker_token` cookie is sent. |
| AuthRoutes.Authorize | app/api/auth/onboarding/route.ts:13-34 | The checks pass exactly when the cookie, the verification, the body, a non-empty email claim and the connection are all there; failures are 400, 401 or 500 without a cookie. |
| AuthRoutes.SaveOnboarding | app/api/auth/onboarding/route.ts:37-52 | No account under the key is 404 with the store unchanged; otherwise that account is overwritten and the answer is 200. |
| AuthRoutes.Onboarding | app/api/auth/onboarding/route.ts:11-59 | Onboarding answers 200, 400, 401, 404 or 500, never sets a cookie, keeps the set of accounts, and writes nothing unless it answers 200. |
| AuthRoutes.ApplyCookie | app/api/auth/register/route.ts:65 | A browser stores the cookie a response sets under its name and keeps the others. |
| AuthRoutes.RegisterDuplicate | app/api/auth/register/route.ts:33-37 | A taken email is 400 "User already exists" with the store unchanged. |
| AuthRoutes.RegisterCreates | app/api/auth/register/route.ts:39-79 | When register answers 201 or writes at all, exactly one new valid account is added under the previously free normalised email, holding `hash(password)` and the request's fields; the answer is 201 exactly when signing succeeds, carrying the account and a strict `devtracker_token` cookie with the signed `{userId, email}`, and 500 otherwise. |
| AuthRoutes.RegisterSucceedsIff | app/api/auth/register/route.ts:26-53 | Register answers 201 exactly when the connection is up, the email is free, a password is sent, the schema accepts the draft, a "credentials" hash is non-empty and the new `{userId, email}` can be signed. |
| AuthRoutes.RegisterSignFailureKeepsAccount | app/api/auth/register/route.ts:43-79 | When signing throws after creation, register answers 500 and the new account stays stored. |
| AuthRoutes.RegisterKeepsStoreValid | models/User.ts:17-30 | Register keeps every account valid and stored under its own (unique) email. |
| AuthRoutes.LoginUnknownEmail | app/api/auth/login/route.ts:18-23 | An unknown email is 404 "User not found" with no cookie. |
| AuthRoutes.LoginUnknownNeverUnauthorized | app/api/auth/login/route.ts:18-31 | The lookup comes before the comparison, so an unknown email is never 401. |
| AuthRoutes.LoginSucceedsIff | app/api/auth/login/route.ts:26-52 | Login is 200 exactly when the account exists, the passwords compare equal and signing succeeds; the cookie is then a lax `token` holding the signed `{id, email, role}`. |
| AuthRoutes.LoginWrongPassword | app/api/auth/login/route.ts:26-31 | A failed comparison is 401 "Invalid credentials" with no cookie. |
| AuthRoutes.LoginWithoutStoredPassword | app/api/auth/login/route.ts:26 | An account with no stored password is 500. |
| AuthRoutes.RegisterThenLogin | app/api/auth/login/route.ts:18-41 | After a registration, login with the same password and any spelling of the address that normalises alike is 200, when compare accepts a password against its own hash and claims with an email can be signed. |
| AuthRoutes.OnboardingUnauthorizedIff | app/api/auth/onboarding/route.ts:14-19 | The answer is 401 exactly when no non-empty `devtracker_token` is sent, and then nothing is written. |
| AuthRoutes.OnboardingVerifyFails | app/api/auth/onboarding/route.ts:22-58 | A token that fails verification is 500 with nothing written. |
| AuthRoutes.OnboardingEmailMissing | app/api/auth/onboarding/route.ts:22-31 | A verified token without an email claim is 400 with nothing written. |
| AuthRoutes.OnboardingUnknownAccount | app/api/auth/onboarding/route.ts:44-46 | No account under the token's email is 404 with nothing written. |
| AuthRoutes.OnboardingFrame | app/api/auth/onboarding/route.ts:37-52 | On 200 only the account under the token's email changes, only in its onboarding fields, and the response carries it. |
| AuthRoutes.OnboardingIdempotent | app/api/auth/onboarding/route.ts:37-41 | Sending the same request twice leaves the same store and answer as sending it once. |
| AuthRoutes.OnboardingKeepsStoreValid | app/api/auth/onboarding/route.ts:37-41 | Onboarding keeps a valid store valid. |
| AuthRoutes.UnresolvedConnectionFailsRoutes | app/api/auth/register/route.ts:8 | With the connection call throwing, register and login always answer 500 and write nothing, and onboarding never answers 200 and writes nothing. |
| AuthRoutes.LoginOnlySessionUnauthorized | app/api/auth/onboarding/route.ts:14 | A browser whose only session cookie came from login is always 401 at onboarding. |
| AuthRoutes.RegisterThenOnboarding | app/api/auth/onboarding/route.ts:14-52 | When a token signed for an email is non-empty and verifies to claims with that same email (other claims may differ), onboarding right after registration is 200. |
| RouteHandlers.UserStore.Register | app/api/auth/register/route.ts:17-80 | The in-place handler answers and updates the collection exactly as `AuthRoutes.Register`, keeping it valid. |
| RouteHandlers.UserStore.Login | app/api/auth/login/route.ts:9-61 | The handler answers exactly as `AuthRoutes.Login` and modifies nothing. |
| RouteHandlers.UserStore.SaveOnboarding | app/api/auth/onboarding/route.ts:11-59 | The in-place handler answers and updates the collection exactly as `AuthRoutes.Onboarding`, keeping it valid. |

## Left out

- **Delegated sign-in.** The next-auth route is outside the modelled core. Its sign-in
  callback creates a "google" account with an empty password, role "user" and no
  skills when the address is new; login then treats that account as described above.
- **The roadmap-generation route.** It is an HTTP call to an external completion API and
  is not part of this model.
- **The progress bar.** Its width is floating-point styling arithmetic.
- **The confirm step's save button.** It shows an alert and navigates; it persists
  nothing, so the last step has no handler.
- **Animation and rendering.** The title-casing of role button labels is not modelled.
- **`toLowerCase`.** It is modelled on ASCII letters only.
- **`trim`.** Its characters are the WhiteSpace and LineTerminator code points of
  ECMA-262, with the Unicode space separators listed as they stand today; a space
  separator added by a later Unicode version is not included.
- **Request bodies.**
  - JSON values of the wrong type (a number where a string is expected, for example) are
    not modelled.
  - The register and login `email` is always a string. An undefined email in a Mongoose
    filter is not modelled.
  - A body that fails to parse is `None`.
- **Onboarding body fields.** Undefined fields are stripped from the update, as current
  Mongoose versions do. The Mongoose version is not pinned in the source.
- **Mongoose setters on query filters.** The lower-case and trim setters also apply to
  query filters, so lookups use the normalised email.
- **Services.** Hashing, token signing and verification, the connection outcome and the
  production flag are parameters with no properties. Signing and verification may fail
  (a throw), and the handlers answer 500 then. Lemmas that need more state it as a
  precondition: `compare(p, hash(p))`, `SignsSessions` (claims with an email can be
  signed), or `TokensKeepEmail` (a signed token verifies to claims with the same email).
- **Token expiry, cookie expiry and `Date` timestamps** are not modelled.
- **The document identifier.** It is a parameter of register.
- **Connection handling.** Connection caching is not modelled; a failed connection is one
  boolean. Every 200/201 result, `RegisterThenLogin` and `RegisterThenOnboarding`
  presume a connection that can succeed, that is, `connectToDB` imported from the
  Mongoose helper module (see "## Findings").
- **Uniqueness.** The `unique` index's duplicate-key error on concurrent registrations is
  not modelled. The store is a map keyed by email, so uniqueness holds by construction
  and each handler runs atomically.
- **Error logging** (`console.error`) is not modelled.
- **The wizard handlers.** Each requires the step on which its control is rendered.
  `ToggleSkill` requires a skill that is offered on the checkbox list.
- AuthRoutes.RegisterThenOnboarding: it states only the 200 status; which fields change
  is stated once, for every successful save, by `OnboardingFrame`.

## Findings

| source | as written | input that shows it | evidently intended | confidence | as-written member | corrected member |
|---|---|---|---|---|---|---|
| app/api/auth/register/route.ts:8 | register, login and onboarding import `connectToDB` from the module that exports only the native client promise, so the call fails and every route answers 500 (or 400/401 before it) | any request that passes the earlier checks, e.g. a register body with a new address | the `connectToDB` of the Mongoose helper module, whose connection can succeed | not executed | AuthRoutes.UnresolvedConnectionFailsRoutes | AuthRoutes.RegisterSucceedsIff |
| app/auth/onboarding/page.tsx:32 | the lookup of the lower-cased role in `roleSkillMap`, with an empty-list fallback, also finds the keys every object inherits from `Object.prototype`; they return a truthy non-array, so the skill step's `.map` throws | custom role "constructor" (or "Constructor", "__proto__") | only the table's own roles have skills, and every other role is offered none | not executed | OnboardingWizard.ConstructorRoleBreaksSkillStep | OnboardingWizard.SkillsForRoleAgrees |

The `Wizard` class offers skills through the corrected lookup (`Wizard.OfferedSkills`), so
it does not fail on these roles; only `SkillsForRoleAsWritten` has the behaviour of the
page as written.
