/**
 * The account service: `normalizeEmail`, `sanitizeUser`, `createToken`, the
 * `$set` merge `findByIdAndUpdate` applies, and the account store with the
 * register, login and `PUT /api/user/:id` routes.
 */
module Server {
  import opened Wrappers
  import opened Text
  import opened Types
  import opened Json
  import opened Libraries
  import opened Validators
  import opened UserModel
  import opened AuthGate

  const EmailTakenMessage := "Email already registered"
  const UserNotFoundMessage := "User not found"
  const InvalidCredentialsMessage := "Invalid credentials"
  const InvalidIdMessage := "Invalid user id"
  const ForbiddenMessage := "Forbidden"
  const SaveValidationMessage := "User validation failed"
  const UpdateValidationMessage := "Validation failed"
  const DateCastMessage := "Cast to date failed"

  /** The body `handleServerError` sends with a 500. */
  function ErrorBody(m: string): Json {
    JObj(map["error" := JStr(m)])
  }

  // ---------------------------------------------------------------- pure helpers

  /** `normalizeEmail`: trim, then lower-case. */
  function NormalizeEmail(email: string): (r: string)
    ensures Trimmed(r)
    ensures forall k :: 0 <= k < |r| ==> !IsUpperAscii(r[k])
    ensures |r| <= |email|
  {
    ToLowerKeepsTrimmed(Trim(email));
    ToLower(Trim(email))
  }

  lemma NormalizeEmailIdempotent(email: string)
    ensures NormalizeEmail(NormalizeEmail(email)) == NormalizeEmail(email)
  {
    var t := Trim(email);
    ToLowerKeepsTrimmed(t);
    ToLowerIdempotent(t);
  }

  /** The schema's setters leave a normalised address as it is, so the stored
      e-mail is exactly the one the route checked for uniqueness. */
  lemma SettersKeepNormalizedEmail(email: string)
    ensures EmailSetter(NormalizeEmail(email)) == NormalizeEmail(email)
  {
    NormalizeEmailIdempotent(email);
  }

  /** `sanitizeUser`: the document without `password` and `__v`, every other
      key with its value. */
  function SanitizeUser(doc: map<string, Json>): (r: map<string, Json>)
    ensures r.Keys == doc.Keys - {"password", "__v"}
    ensures forall k :: k in r ==> r[k] == doc[k]
  {
    map k | k in doc && k != "password" && k != "__v" :: doc[k]
  }

  /** `expiresIn: '7d'`, in seconds. */
  const TokenLifetime := 7 * 24 * 60 * 60

  /** `createToken`: `{ userId }` signed with the secret, issued at `now`. */
  function CreateToken(libs: ServerLibs, secret: string, userId: string, now: int): string {
    libs.sign(Claims(Some(userId), now, now + TokenLifetime), secret)
  }

  /** A token the server issued opens the gate, as its account, for seven days. */
  lemma IssuedTokenAuthenticates(libs: ServerLibs, secret: string, userId: string, issued: int, now: int)
    requires JwtSound(libs)
    requires now < issued + TokenLifetime
    ensures Gate(libs, secret, Some(BearerPrefix + CreateToken(libs, secret, userId, issued)), now)
            == Pass(AuthInfo(Some(userId)))
  {
    BearerRoundTrip(CreateToken(libs, secret, userId, issued));
  }

  /** From the seventh day on the same token gets the plain 401 'Invalid token'. */
  lemma IssuedTokenExpires(libs: ServerLibs, secret: string, userId: string, issued: int, now: int)
    requires JwtSound(libs)
    requires now >= issued + TokenLifetime
    ensures Gate(libs, secret, Some(BearerPrefix + CreateToken(libs, secret, userId, issued)), now)
            == Reject(Response(401, MsgBody(InvalidTokenMessage)))
  {
    BearerRoundTrip(CreateToken(libs, secret, userId, issued));
  }

  // ---------------------------------------------------------------- findByIdAndUpdate

  /** The `$set` of the validated keys: a key the update does not carry keeps its
      stored value; the name and e-mail pass through the schema's setters; a
      billing sub-record replaces the stored one as a whole. */
  function ApplyUpdate(a: Account, u: UpdateData): (r: Account)
    ensures r.id == a.id && r.password == a.password && r.version == a.version
    ensures r.name == (if u.name.Some? then NameSetter(u.name.value) else a.name)
    ensures r.email == (if u.email.Some? then EmailSetter(u.email.value) else a.email)
    ensures r.plan == u.plan.GetOr(a.plan) && r.stylePreference == u.stylePreference.GetOr(a.stylePreference)
    ensures r.theme == u.theme.GetOr(a.theme) && r.language == u.language.GetOr(a.language)
    ensures r.consent == u.consent.GetOr(a.consent)
    ensures r.consentDate == (if u.consentDate.Some? then u.consentDate else a.consentDate)
    ensures r.favorites == u.favorites.GetOr(a.favorites) && r.outfits == u.outfits.GetOr(a.outfits)
    ensures r.billing == (if u.billing.Some? then u.billing else a.billing)
  {
    a.(name := if u.name.Some? then NameSetter(u.name.value) else a.name,
       email := if u.email.Some? then EmailSetter(u.email.value) else a.email,
       plan := u.plan.GetOr(a.plan),
       stylePreference := u.stylePreference.GetOr(a.stylePreference),
       theme := u.theme.GetOr(a.theme),
       language := u.language.GetOr(a.language),
       consent := u.consent.GetOr(a.consent),
       consentDate := if u.consentDate.Some? then u.consentDate else a.consentDate,
       favorites := u.favorites.GetOr(a.favorites),
       outfits := u.outfits.GetOr(a.outfits),
       billing := if u.billing.Some? then u.billing else a.billing)
  }

  /** The empty update leaves the account as it is. */
  lemma EmptyUpdateKeepsAccount(a: Account)
    requires Trimmed(a.name) && EmailSetter(a.email) == a.email
    ensures ApplyUpdate(a, NoUpdate) == a
  {
  }

  /** Applying the same update twice is applying it once. */
  lemma {:induction false} ApplyUpdateIdempotent(a: Account, u: UpdateData)
    ensures ApplyUpdate(ApplyUpdate(a, u), u) == ApplyUpdate(a, u)
  {
    var once := ApplyUpdate(a, u);
    var twice := ApplyUpdate(once, u);
    if u.name.Some? {
      TrimIdempotent(u.name.value);
      assert twice.name == once.name;
    }
    if u.email.Some? {
      SettersKeepNormalizedEmail(u.email.value);
      assert twice.email == once.email;
    }
  }

  /** Some account other than `self` holds `email`. */
  predicate EmailUsedByOther(accounts: map<string, Account>, email: string, self: string) {
    exists id :: id in accounts && id != self && accounts[id].email == email
  }

  predicate EmailInUse(accounts: map<string, Account>, email: string) {
    exists id :: id in accounts && accounts[id].email == email
  }

  /** `runValidators`: a `$set` that empties a required path is refused. */
  predicate ClearsRequired(u: UpdateData) {
    (u.name.Some? && NameSetter(u.name.value) == "") || (u.email.Some? && EmailSetter(u.email.value) == "")
  }

  datatype UpdateError = CastFailed | ValidatorFailed | NotFound | DuplicateKey

  /** `findByIdAndUpdate(id, u, { new: true, runValidators: true })`: the update is
      cast and validated before the lookup; the unique e-mail index is checked on write. */
  function FindByIdAndUpdate(libs: ServerLibs, accounts: map<string, Account>, id: string, u: UpdateData)
    : (r: Result<Account, UpdateError>)
    ensures r.Ok? <==>
      && (u.consentDate.None? || libs.isDate(u.consentDate.value))
      && !ClearsRequired(u)
      && id in accounts
      && !EmailUsedByOther(accounts, ApplyUpdate(accounts[id], u).email, id)
    ensures r.Ok? ==> r.value == ApplyUpdate(accounts[id], u)
    ensures r == Err(NotFound) <==>
      (u.consentDate.None? || libs.isDate(u.consentDate.value)) && !ClearsRequired(u) && id !in accounts
  {
    if u.consentDate.Some? && !libs.isDate(u.consentDate.value) then Err(CastFailed)
    else if ClearsRequired(u) then Err(ValidatorFailed)
    else if id !in accounts then Err(NotFound)
    else
      var updated := ApplyUpdate(accounts[id], u);
      if EmailUsedByOther(accounts, updated.email, id) then Err(DuplicateKey) else Ok(updated)
  }

  /** How the route's `catch` answers each failure: code 11000 is a 409. */
  function UpdateErrorResponse(e: UpdateError): (r: Response)
    ensures e == NotFound ==> r == Response(404, MsgBody(UserNotFoundMessage))
    ensures e == DuplicateKey ==> r == Response(409, MsgBody(EmailTakenMessage))
    ensures e == CastFailed || e == ValidatorFailed ==> r.status == 500
  {
    match e
    case CastFailed => Response(500, ErrorBody(DateCastMessage))
    case ValidatorFailed => Response(500, ErrorBody(UpdateValidationMessage))
    case NotFound => Response(404, MsgBody(UserNotFoundMessage))
    case DuplicateKey => Response(409, MsgBody(EmailTakenMessage))
  }

  /** `allowedUpdates` after the handler normalises a non-empty patched e-mail. */
  function NormalizeUpdate(u: UpdateData): UpdateData {
    if u.email.Some? && u.email.value != "" then u.(email := Some(NormalizeEmail(u.email.value))) else u
  }

  /** The handler's own e-mail check: a non-empty patched address that, once
      normalised, belongs to another account. */
  predicate EmailConflict(accounts: map<string, Account>, id: string, u: UpdateData) {
    u.email.Some? && u.email.value != "" && EmailUsedByOther(accounts, NormalizeEmail(u.email.value), id)
  }

  /** The body of a successful register or login. */
  function SessionBody(a: Account, token: string): Json {
    JObj(map["user" := JObj(SanitizeUser(ToObject(a))), "token" := JStr(token)])
  }

  /** The answer of the `PUT /api/user/:id` handler, step by step: a bad id, then
      a token for another account, then an invalid payload, then an e-mail held by
      another account, then the update itself. Only a successful update changes
      the store, and only under `id`. */
  ghost predicate UpdateLadder(libs: ServerLibs, before: map<string, Account>, after: map<string, Account>,
                               auth: AuthInfo, id: string, body: Json, res: Response)
  {
    var v := ValidateSchema(ParseUpdate(libs.isEmail, body));
    if !libs.isObjectId(id) then res == Response(400, MsgBody(InvalidIdMessage)) && after == before
    else if auth.userId != Some(id) then res == Response(403, MsgBody(ForbiddenMessage)) && after == before
    else if v.Failure? then res == Response(400, MsgBody(v.message)) && after == before
    else if EmailConflict(before, id, v.data) then res == Response(409, MsgBody(EmailTakenMessage)) && after == before
    else match FindByIdAndUpdate(libs, before, id, NormalizeUpdate(v.data))
      case Ok(acc) => after == before[id := acc] && res == Response(200, JObj(SanitizeUser(ToObject(acc))))
      case Err(e) => after == before && res == UpdateErrorResponse(e)
  }

  // ---------------------------------------------------------------- the account store

  /** Every account is stored under its own id. */
  ghost predicate IdsMatch(accounts: map<string, Account>) {
    forall id :: id in accounts ==> accounts[id].id == id
  }

  /** Every stored e-mail is in normal form. */
  ghost predicate EmailsNormalized(accounts: map<string, Account>) {
    forall id :: id in accounts ==> NormalizeEmail(accounts[id].email) == accounts[id].email
  }

  /** No two accounts share an e-mail (the unique index). */
  ghost predicate EmailsUnique(accounts: map<string, Account>) {
    forall i, j :: i in accounts && j in accounts && accounts[i].email == accounts[j].email ==> i == j
  }

  ghost predicate ValidStore(accounts: map<string, Account>) {
    IdsMatch(accounts) && EmailsNormalized(accounts) && EmailsUnique(accounts)
  }

  /** Storing an account under its own id keeps every account under its id. */
  lemma StoreKeepsIds(accounts: map<string, Account>, acc: Account)
    requires IdsMatch(accounts)
    ensures IdsMatch(accounts[acc.id := acc])
  {
  }

  lemma StoreKeepsNormalized(accounts: map<string, Account>, acc: Account)
    requires EmailsNormalized(accounts) && NormalizeEmail(acc.email) == acc.email
    ensures EmailsNormalized(accounts[acc.id := acc])
  {
    var m := accounts[acc.id := acc];
    forall id | id in m ensures NormalizeEmail(m[id].email) == m[id].email {
      if id != acc.id { assert m[id] == accounts[id]; }
    }
  }

  /** Storing an account whose e-mail no other account holds keeps e-mails unique. */
  lemma StoreKeepsUnique(accounts: map<string, Account>, acc: Account)
    requires EmailsUnique(accounts)
    requires !EmailUsedByOther(accounts, acc.email, acc.id)
    ensures EmailsUnique(accounts[acc.id := acc])
  {
    var m := accounts[acc.id := acc];
    forall i, j | i in m && j in m && m[i].email == m[j].email ensures i == j {
      if i != acc.id && j != acc.id {
        assert accounts[i].email == accounts[j].email;
      }
    }
  }

  /** Writing an account under its id, with a normalised e-mail no other account
      holds, keeps the store valid; this covers both insert and replace. */
  lemma StoreKeepsValid(accounts: map<string, Account>, acc: Account)
    requires ValidStore(accounts)
    requires NormalizeEmail(acc.email) == acc.email
    requires !EmailUsedByOther(accounts, acc.email, acc.id)
    ensures ValidStore(accounts[acc.id := acc])
  {
    StoreKeepsIds(accounts, acc);
    StoreKeepsNormalized(accounts, acc);
    StoreKeepsUnique(accounts, acc);
  }

  class AccountServer {
    var accounts: map<string, Account>
    const libs: ServerLibs
    const secret: string

    ghost predicate Valid()
      reads this
    {
      ValidStore(accounts)
    }

    constructor (libs: ServerLibs, jwtSecretEnv: Option<string>)
      ensures Valid() && accounts == map[]
      ensures this.libs == libs && secret == JwtSecret(jwtSecretEnv)
    {
      this.libs := libs;
      secret := JwtSecret(jwtSecretEnv);
      accounts := map[];
    }

    /** `POST /api/register`. `newId` is the id mongoose generates, `salt` bcrypt's
        random salt and `now` the clock the token is issued at. */
    method Register(body: Json, newId: string, salt: string, now: int) returns (res: Response)
      requires Valid()
      modifies this
      ensures Valid()
      ensures var v := ValidateSchema(ParseRegister(libs.isEmail, body));
        && (v.Failure? ==> res == Response(400, MsgBody(v.message)) && accounts == old(accounts))
        && (v.Success? && EmailInUse(old(accounts), NormalizeEmail(v.data.email)) ==>
              res == Response(409, MsgBody(EmailTakenMessage)) && accounts == old(accounts))
        && (v.Success? && !EmailInUse(old(accounts), NormalizeEmail(v.data.email)) ==>
              var acc := NewAccount(newId, Trim(v.data.name), NormalizeEmail(v.data.email), libs.hash(v.data.password, salt));
              && (MissingRequired(acc) ==> res == Response(500, ErrorBody(SaveValidationMessage)) && accounts == old(accounts))
              && (!MissingRequired(acc) && newId in old(accounts) ==>
                    res == Response(409, MsgBody(EmailTakenMessage)) && accounts == old(accounts))
              && (!MissingRequired(acc) && newId !in old(accounts) ==>
                    accounts == old(accounts)[newId := acc]
                    && res == Response(201, SessionBody(acc, CreateToken(libs, secret, newId, now)))))
    {
      var v := ValidateSchema(ParseRegister(libs.isEmail, body));
      if v.Failure? {
        return Response(400, MsgBody(v.message));
      }
      var email := NormalizeEmail(v.data.email);
      if EmailInUse(accounts, email) {
        return Response(409, MsgBody(EmailTakenMessage));
      }
      var hashed := libs.hash(v.data.password, salt);
      var acc := NewAccount(newId, Trim(v.data.name), email, hashed);
      if MissingRequired(acc) {
        return Response(500, ErrorBody(SaveValidationMessage));
      }
      if newId in accounts {
        // the duplicate `_id` fails the insert with code 11000
        return Response(409, MsgBody(EmailTakenMessage));
      }
      SettersKeepNormalizedEmail(v.data.email);
      NormalizeEmailIdempotent(v.data.email);
      StoreKeepsValid(accounts, acc);
      accounts := accounts[newId := acc];
      res := Response(201, SessionBody(acc, CreateToken(libs, secret, newId, now)));
    }

    /** `POST /api/login`. It changes nothing. */
    method Login(body: Json, now: int) returns (res: Response)
      requires Valid()
      ensures var v := ValidateSchema(ParseLogin(libs.isEmail, body));
        && (v.Failure? ==> res == Response(400, MsgBody(v.message)))
        && (v.Success? && !EmailInUse(accounts, NormalizeEmail(v.data.email)) ==>
              res == Response(404, MsgBody(UserNotFoundMessage)))
        && (forall id :: v.Success? && id in accounts && accounts[id].email == NormalizeEmail(v.data.email) ==>
              && (libs.compare(v.data.password, accounts[id].password) ==>
                    res == Response(200, SessionBody(accounts[id], CreateToken(libs, secret, id, now))))
              && (!libs.compare(v.data.password, accounts[id].password) ==>
                    res == Response(400, MsgBody(InvalidCredentialsMessage))))
    {
      var v := ValidateSchema(ParseLogin(libs.isEmail, body));
      if v.Failure? {
        return Response(400, MsgBody(v.message));
      }
      var email := NormalizeEmail(v.data.email);
      if !EmailInUse(accounts, email) {
        return Response(404, MsgBody(UserNotFoundMessage));
      }
      var id :| id in accounts && accounts[id].email == email;
      if !libs.compare(v.data.password, accounts[id].password) {
        return Response(400, MsgBody(InvalidCredentialsMessage));
      }
      res := Response(200, SessionBody(accounts[id], CreateToken(libs, secret, id, now)));
    }

    /** The handler of `PUT /api/user/:id`, given what the gate stored in `req.auth`. */
    method UpdateHandler(auth: AuthInfo, id: string, body: Json) returns (res: Response)
      requires Valid()
      modifies this
      ensures Valid()
      ensures UpdateLadder(libs, old(accounts), accounts, auth, id, body, res)
    {
      if !libs.isObjectId(id) {
        return Response(400, MsgBody(InvalidIdMessage));
      }
      if auth.userId != Some(id) {
        return Response(403, MsgBody(ForbiddenMessage));
      }
      var v := ValidateSchema(ParseUpdate(libs.isEmail, body));
      if v.Failure? {
        return Response(400, MsgBody(v.message));
      }
      var allowed := v.data;
      if allowed.email.Some? && allowed.email.value != "" {
        allowed := allowed.(email := Some(NormalizeEmail(allowed.email.value)));
        if EmailUsedByOther(accounts, allowed.email.value, id) {
          return Response(409, MsgBody(EmailTakenMessage));
        }
      }
      assert allowed == NormalizeUpdate(v.data);
      res := Commit(id, allowed);
    }

    /** `User.findByIdAndUpdate(id, { $set: allowed }, { new: true, runValidators: true })`
        and the answer the handler makes of its outcome. */
    method Commit(id: string, allowed: UpdateData) returns (res: Response)
      requires Valid()
      modifies this
      ensures Valid()
      ensures match FindByIdAndUpdate(libs, old(accounts), id, allowed)
        case Ok(acc) => accounts == old(accounts)[id := acc] && res == Response(200, JObj(SanitizeUser(ToObject(acc))))
        case Err(e) => accounts == old(accounts) && res == UpdateErrorResponse(e)
    {
      var outcome := FindByIdAndUpdate(libs, accounts, id, allowed);
      if outcome.Err? {
        return UpdateErrorResponse(outcome.error);
      }
      var acc := outcome.value;
      if allowed.email.Some? {
        NormalizeEmailIdempotent(allowed.email.value);
      }
      StoreKeepsValid(accounts, acc);
      accounts := accounts[id := acc];
      res := Response(200, JObj(SanitizeUser(ToObject(acc))));
    }

    /** `app.put('/api/user/:id', authMiddleware, handler)`: the gate, then the handler. */
    method PutUser(req: Request, id: string, now: int) returns (res: Response)
      requires Valid()
      modifies this, req
      ensures Valid()
      ensures var g := Gate(libs, secret, req.authorization, now);
        && (g.Reject? ==> res == g.response && accounts == old(accounts) && req.auth == old(req.auth))
        && (g.Pass? ==> req.auth == Some(g.auth)
                        && UpdateLadder(libs, old(accounts), accounts, g.auth, id, req.body, res))
    {
      var k := AuthMiddleware(libs, secret, req, now);
      if k.Respond? {
        return k.response;
      }
      res := UpdateHandler(req.auth.value, id, req.body);
    }
  }
}
