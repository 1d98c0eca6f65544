/**
 * The browser's API client: the bearer token kept in memory and mirrored in
 * storage, the headers and bodies `request` sends, the error message a failed
 * response turns into, and the two calls the session makes.
 */
module Api {
  import opened Wrappers
  import opened Types
  import opened Json
  import opened BrowserStorage

  const TokenKey := "modai_token"
  const RequestFailedMessage := "Request failed"

  /** What `fetch` is given: the method, the path under the API base URL, the
      headers and the JSON body (`JSON.stringify` of it). */
  datatype RequestInit = RequestInit(verb: string, path: string, headers: map<string, string>, body: Option<Json>)

  /** A reply as `fetch` delivers it; `body` is `None` when it is not JSON. */
  datatype Reply = Reply(status: int, body: Option<Json>)

  /** The error message `parseError` picks: a non-empty `msg`, else a non-empty
      `error`, else "Request failed", which also covers a body that is not JSON. */
  function ParseErrorMessage(body: Option<Json>): (m: string)
    ensures m != ""
    ensures body.Some? && body.value.JObj? && StrField(body.value.fields, "msg") != "" ==>
              m == StrField(body.value.fields, "msg")
    ensures body.Some? && body.value.JObj? && StrField(body.value.fields, "msg") == ""
            && StrField(body.value.fields, "error") != ""
            ==> m == StrField(body.value.fields, "error")
    ensures body.Some? && body.value.JObj? && StrField(body.value.fields, "msg") == ""
            && StrField(body.value.fields, "error") == ""
            ==> m == RequestFailedMessage
    ensures !(body.Some? && body.value.JObj?) ==> m == RequestFailedMessage
  {
    if body.Some? && body.value.JObj? then
      var f := body.value.fields;
      if StrField(f, "msg") != "" then StrField(f, "msg")
      else if StrField(f, "error") != "" then StrField(f, "error")
      else RequestFailedMessage
    else RequestFailedMessage
  }

  /** The string at `key`, or "" when there is none. */
  function StrField(f: map<string, Json>, key: string): string {
    if key in f && f[key].JStr? then f[key].s else ""
  }

  /** What `request` makes of a reply: a non-ok status throws an Error with the
      parsed message; 204 resolves to `null`; anything else to the JSON body.
      `InvalidJsonMessage` stands for the engine's message when an ok body is not JSON. */
  function HandleReply(reply: Reply): (r: Result<Json, string>)
    ensures !(200 <= reply.status < 300) ==> r == Err(ParseErrorMessage(reply.body))
    ensures 200 <= reply.status < 300 && reply.status == 204 ==> r == Ok(JNull)
    ensures 200 <= reply.status < 300 && reply.status != 204 && reply.body.Some? ==> r == Ok(reply.body.value)
    ensures r.Err? ==> r.error != ""
  {
    if !(200 <= reply.status < 300) then Err(ParseErrorMessage(reply.body))
    else if reply.status == 204 then Ok(JNull)
    else if reply.body.Some? then Ok(reply.body.value)
    else Err(InvalidJsonMessage)
  }

  const InvalidJsonMessage := "Unexpected token in JSON"

  datatype AuthMode = LoginMode | RegisterMode

  /** `mode === 'login' ? '/api/login' : '/api/register'`. */
  function AuthEndpoint(mode: AuthMode): (p: string)
    ensures mode == LoginMode ==> p == "/api/login"
    ensures mode == RegisterMode ==> p == "/api/register"
  {
    if mode == LoginMode then "/api/login" else "/api/register"
  }

  /** `{ email, password, name? }` as the auth page sends it. */
  datatype AuthPayload = AuthPayload(email: string, password: string, name: Option<string>)

  function AuthPayloadJson(p: AuthPayload): (j: Json)
    ensures j.JObj? && "email" in j.fields && "password" in j.fields
    ensures "name" in j.fields <==> p.name.Some?
  {
    var f := map["email" := JStr(p.email), "password" := JStr(p.password)];
    JObj(if p.name.Some? then f["name" := JStr(p.name.value)] else f)
  }

  /** The decoded `{ user, token }` of a successful register or login. */
  datatype AuthResponse = AuthResponse(user: UserData, token: string)

  /** `JSON.stringify(data)` of a partial user: a key is written only when the
      patch carries it with a defined value, so `billing: undefined` and
      `consentDate: undefined` do not reach the server. */
  function WirePatch(p: Patch): (j: Json)
    ensures j.JObj? && j.fields.Keys <= PatchKeys
  {
    JObj(map k | k in PatchKeys && WireValue(p, k).Some? :: WireValue(p, k).value)
  }

  /** A patch key is on the wire exactly when the patch sets it to a defined value. */
  lemma WireKeys(p: Patch)
    ensures "name" in WirePatch(p).fields <==> p.name.Some?
    ensures "email" in WirePatch(p).fields <==> p.email.Some?
    ensures "plan" in WirePatch(p).fields <==> p.plan.Some?
    ensures "stylePreference" in WirePatch(p).fields <==> p.stylePreference.Some?
    ensures "theme" in WirePatch(p).fields <==> p.theme.Some?
    ensures "language" in WirePatch(p).fields <==> p.language.Some?
    ensures "consent" in WirePatch(p).fields <==> p.consent.Some?
    ensures "consentDate" in WirePatch(p).fields <==> p.consentDate.SetTo?
    ensures "favorites" in WirePatch(p).fields <==> p.favorites.Some?
    ensures "outfits" in WirePatch(p).fields <==> p.outfits.Some?
    ensures "billing" in WirePatch(p).fields <==> p.billing.SetTo?
  {
    WireValueDefined(p);
  }

  /** Which keys of a patch have a defined value. */
  lemma WireValueDefined(p: Patch)
    ensures WireValue(p, "name").Some? <==> p.name.Some?
    ensures WireValue(p, "email").Some? <==> p.email.Some?
    ensures WireValue(p, "plan").Some? <==> p.plan.Some?
    ensures WireValue(p, "stylePreference").Some? <==> p.stylePreference.Some?
    ensures WireValue(p, "theme").Some? <==> p.theme.Some?
    ensures WireValue(p, "language").Some? <==> p.language.Some?
    ensures WireValue(p, "consent").Some? <==> p.consent.Some?
    ensures WireValue(p, "consentDate").Some? <==> p.consentDate.SetTo?
    ensures WireValue(p, "favorites").Some? <==> p.favorites.Some?
    ensures WireValue(p, "outfits").Some? <==> p.outfits.Some?
    ensures WireValue(p, "billing").Some? <==> p.billing.SetTo?
  {
  }

  /** The keys of `Partial<UserData>` the pages send. */
  const PatchKeys: set<string> := {"name", "email", "plan", "stylePreference", "theme", "language",
                                   "consent", "consentDate", "favorites", "outfits", "billing"}

  /** The JSON a patch key is written as, `None` when it is missing or `undefined`. */
  function WireValue(p: Patch, key: string): Option<Json> {
    match key
    case "name" => StrOpt(p.name)
    case "email" => StrOpt(p.email)
    case "plan" => if p.plan.Some? then Some(JStr(PlanName(p.plan.value))) else None
    case "stylePreference" => if p.stylePreference.Some? then Some(JStr(StyleName(p.stylePreference.value))) else None
    case "theme" => if p.theme.Some? then Some(JStr(ThemeName(p.theme.value))) else None
    case "language" => if p.language.Some? then Some(JStr(LanguageName(p.language.value))) else None
    case "consent" => if p.consent.Some? then Some(JBool(p.consent.value)) else None
    case "consentDate" => if p.consentDate.SetTo? then Some(JStr(p.consentDate.value)) else None
    case "favorites" => if p.favorites.Some? then Some(JArr(StringsToJson(p.favorites.value))) else None
    case "outfits" => if p.outfits.Some? then Some(JArr(OutfitsToJson(p.outfits.value))) else None
    case "billing" => if p.billing.SetTo? then Some(BillingToJson(p.billing.value)) else None
    case _ => None
  }

  /** The token store and `request`, which share the module-level `authToken`. */
  class ApiClient {
    var authToken: Option<string>
    const storage: LocalStorage

    /** `let authToken = localStorage.getItem(TOKEN_STORAGE_KEY)`. */
    constructor (storage: LocalStorage)
      ensures this.storage == storage
      ensures authToken == storage.GetItem(TokenKey)
    {
      this.storage := storage;
      authToken := storage.GetItem(TokenKey);
    }

    /** The token in memory is the one in storage. */
    ghost predicate Synced()
      reads this, storage
    {
      authToken == storage.GetItem(TokenKey)
    }

    method SetAuthToken(token: string)
      modifies this, storage
      ensures authToken == Some(token)
      ensures storage.items == old(storage.items)[TokenKey := token]
      ensures Synced()
    {
      authToken := Some(token);
      storage.SetItem(TokenKey, token);
    }

    method ClearAuthToken()
      modifies this, storage
      ensures authToken == None
      ensures storage.items == old(storage.items) - {TokenKey}
      ensures Synced()
    {
      authToken := None;
      storage.RemoveItem(TokenKey);
    }

    /** The token is sent only when it is truthy: present and not empty. */
    predicate HasToken()
      reads this
    {
      authToken.Some? && authToken.value != ""
    }

    /** The headers `request` builds: JSON content type, the caller's headers over
        it, then `Authorization: Bearer <token>` when a token is held. */
    function Headers(extra: map<string, string>): (h: map<string, string>)
      reads this
      ensures "Content-Type" in h
      ensures "Content-Type" !in extra ==> h["Content-Type"] == "application/json"
      ensures forall k :: k in extra && k != "Authorization" ==> k in h && h[k] == extra[k]
      ensures "Authorization" in h <==> HasToken() || "Authorization" in extra
      ensures HasToken() ==> h["Authorization"] == "Bearer " + authToken.value
      ensures forall k :: k in h ==> k in extra || k == "Content-Type" || k == "Authorization"
    {
      var h := map["Content-Type" := "application/json"] + extra;
      if HasToken() then h["Authorization" := "Bearer " + authToken.value] else h
    }

    /** `updateUserRequest(userId, data)`: PUT the stringified patch to the account's URL. */
    function UpdateUserRequest(userId: string, data: Patch): (r: RequestInit)
      reads this
      ensures r.verb == "PUT" && r.path == "/api/user/" + userId
      ensures r.body == Some(WirePatch(data))
      ensures r.headers == Headers(map[])
    {
      RequestInit("PUT", "/api/user/" + userId, Headers(map[]), Some(WirePatch(data)))
    }

    /** `authRequest(mode, payload)`: POST the payload to the mode's endpoint; on
        success the returned token is stored, on failure nothing changes. */
    method AuthRequest(mode: AuthMode, payload: AuthPayload, outcome: Result<AuthResponse, string>)
      returns (sent: RequestInit, result: Result<AuthResponse, string>)
      modifies this, storage
      ensures sent == RequestInit("POST", AuthEndpoint(mode), old(Headers(map[])), Some(AuthPayloadJson(payload)))
      ensures result == outcome
      ensures outcome.Ok? ==> authToken == Some(outcome.value.token)
                              && storage.items == old(storage.items)[TokenKey := outcome.value.token]
      ensures outcome.Err? ==> authToken == old(authToken) && storage.items == old(storage.items)
    {
      sent := RequestInit("POST", AuthEndpoint(mode), Headers(map[]), Some(AuthPayloadJson(payload)));
      result := outcome;
      if outcome.Ok? {
        SetAuthToken(outcome.value.token);
      }
    }
  }
}
