/**
 * The client session store: the logged-in user, language, theme and last
 * error, the persistence of the user in storage, `login`, `logout`, the
 * optimistic `updateUser` with its rollback, `toggleTheme` and `setLanguage`.
 */
module AppContext {
  import opened Wrappers
  import opened Types
  import opened BrowserStorage
  import opened Api

  const UserKey := "modai_user"
  const DefaultLanguage := Es
  const DefaultTheme := Light
  const SaveFailedMessage := "No se pudo guardar la información."

  /** What `JSON.parse` makes of the stored text: a syntax error, or a value the
      client takes as `UserData | null`. */
  datatype Decoded = Corrupt | Parsed(user: Option<UserData>)

  /** `JSON.stringify` and `JSON.parse` of a client user. */
  datatype UserCodec = UserCodec(encode: UserData -> string, decode: string -> Decoded)

  // ---------------------------------------------------------------- the local merge

  /** One key of a spread: a missing key keeps the old value, a present one
      overrides it, `undefined` included. */
  function SpreadField<T>(f: Field<T>, before: Option<T>): (r: Option<T>)
    ensures f.Absent? ==> r == before
    ensures f.SetTo? ==> r == Some(f.value)
    ensures f.SetUndefined? ==> r.None?
  {
    match f
    case Absent => before
    case SetTo(v) => Some(v)
    case SetUndefined => None
  }

  /** `{ ...user, ...data }`. */
  function Spread(u: UserData, p: Patch): UserData {
    UserData(
      u.id,
      p.name.GetOr(u.name),
      p.email.GetOr(u.email),
      p.plan.GetOr(u.plan),
      p.stylePreference.GetOr(u.stylePreference),
      if p.theme.Some? then p.theme else u.theme,
      if p.language.Some? then p.language else u.language,
      p.consent.GetOr(u.consent),
      SpreadField(p.consentDate, u.consentDate),
      p.favorites.GetOr(u.favorites),
      p.outfits.GetOr(u.outfits),
      SpreadField(p.billing, u.billing))
  }

  /** `{ ...p, ...q }` of two patches: `q`'s keys win. */
  function Then(p: Patch, q: Patch): Patch {
    Patch(
      if q.name.Some? then q.name else p.name,
      if q.email.Some? then q.email else p.email,
      if q.plan.Some? then q.plan else p.plan,
      if q.stylePreference.Some? then q.stylePreference else p.stylePreference,
      if q.theme.Some? then q.theme else p.theme,
      if q.language.Some? then q.language else p.language,
      if q.consent.Some? then q.consent else p.consent,
      if q.consentDate.Absent? then p.consentDate else q.consentDate,
      if q.favorites.Some? then q.favorites else p.favorites,
      if q.outfits.Some? then q.outfits else p.outfits,
      if q.billing.Absent? then p.billing else q.billing)
  }

  /** The empty patch changes nothing. */
  lemma SpreadNoChange(u: UserData)
    ensures Spread(u, NoChange) == u
  {
  }

  /** Spreading two patches in turn is spreading their merge. */
  lemma SpreadThen(u: UserData, p: Patch, q: Patch)
    ensures Spread(Spread(u, p), q) == Spread(u, Then(p, q))
  {
  }

  /** Spreading the same patch again changes nothing more. */
  lemma SpreadIdempotent(u: UserData, p: Patch)
    ensures Spread(Spread(u, p), p) == Spread(u, p)
  {
    SpreadThen(u, p, p);
    assert Then(p, p) == p;
  }

  /** `user.language || DEFAULT_LANGUAGE`. */
  function LanguageOf(u: UserData): (l: Language)
    ensures u.language.Some? ==> l == u.language.value
    ensures u.language.None? ==> l == DefaultLanguage
  {
    u.language.GetOr(DefaultLanguage)
  }

  /** `user.theme || DEFAULT_THEME`. */
  function ThemeOf(u: UserData): (t: Theme)
    ensures u.theme.Some? ==> t == u.theme.value
    ensures u.theme.None? ==> t == DefaultTheme
  {
    u.theme.GetOr(DefaultTheme)
  }

  /** `!user._id` is false: the user has a non-empty id. */
  predicate HasId(u: UserData) {
    u.id.Some? && u.id.value != ""
  }

  // ---------------------------------------------------------------- updateUser

  /** What the remote call throws: an `Error` with its message, or another value. */
  datatype Thrown = ErrorValue(message: string) | OtherValue

  /** How `updateUserRequest` settled: the server's copy, or a thrown value. */
  datatype RemoteOutcome = Saved(user: UserData) | Rejected(error: Thrown)

  /** `error instanceof Error ? error.message : fallback`. */
  function ErrorMessage(e: Thrown): (m: string)
    ensures e.ErrorValue? ==> m == e.message
    ensures e.OtherValue? ==> m == SaveFailedMessage
  {
    if e.ErrorValue? then e.message else SaveFailedMessage
  }

  /** The part of the session a reader observes. */
  datatype SessionState = SessionState(user: Option<UserData>, language: Language, theme: Theme, lastError: Option<string>)

  /** The state `updateUser(data)` leaves once the remote call, if any, settled:
      no user leaves everything; the local merge stays when there is no id; a
      saved update takes the server's copy; a rejected one restores the snapshot. */
  function AfterUpdate(s: SessionState, data: Patch, outcome: RemoteOutcome): (r: SessionState)
    ensures s.user.None? ==> r == s
    ensures s.user.Some? && !HasId(s.user.value) ==>
      && r.user == Some(Spread(s.user.value, data)) && r.lastError == s.lastError
      && r.language == (if data.language.Some? then data.language.value else s.language)
      && r.theme == (if data.theme.Some? then data.theme.value else s.theme)
    ensures s.user.Some? && HasId(s.user.value) && outcome.Saved? ==>
      r == SessionState(Some(outcome.user), LanguageOf(outcome.user), ThemeOf(outcome.user), None)
    ensures s.user.Some? && HasId(s.user.value) && outcome.Rejected? ==>
      r == SessionState(s.user, LanguageOf(s.user.value), ThemeOf(s.user.value), Some(ErrorMessage(outcome.error)))
  {
    if s.user.None? then s
    else
      var previous := s.user.value;
      var local := Spread(previous, data);
      var language := if data.language.Some? then data.language.value else s.language;
      var theme := if data.theme.Some? then data.theme.value else s.theme;
      if !HasId(previous) then SessionState(Some(local), language, theme, s.lastError)
      else match outcome
        case Saved(updated) => SessionState(Some(updated), LanguageOf(updated), ThemeOf(updated), None)
        case Rejected(e) => SessionState(Some(previous), LanguageOf(previous), ThemeOf(previous), Some(ErrorMessage(e)))
  }

  /** A rejected update leaves no trace of its patch: the result is the one any
      other patch, the empty one included, would have left. */
  lemma RejectionForgetsPatch(s: SessionState, data: Patch, e: Thrown)
    requires s.user.Some? && HasId(s.user.value)
    ensures AfterUpdate(s, data, Rejected(e)) == AfterUpdate(s, NoChange, Rejected(e))
    ensures AfterUpdate(s, data, Rejected(e)).user == s.user
  {
  }

  /** A saved update shows the server's copy, whatever the local merge was. */
  lemma SavedIgnoresLocalMerge(s: SessionState, d1: Patch, d2: Patch, u: UserData)
    requires s.user.Some? && HasId(s.user.value)
    ensures AfterUpdate(s, d1, Saved(u)) == AfterUpdate(s, d2, Saved(u))
  {
  }

  /** `storage.getItem('modai_user')` read as `getStoredUser` reads it: nothing for a
      missing or empty entry or for corrupt JSON, otherwise the parsed value. */
  function StoredUser(items: map<string, string>, codec: UserCodec): (u: Option<UserData>)
    ensures UserKey !in items || items[UserKey] == "" ==> u.None?
    ensures UserKey in items && items[UserKey] != "" && codec.decode(items[UserKey]).Corrupt? ==> u.None?
    ensures UserKey in items && items[UserKey] != "" && codec.decode(items[UserKey]).Parsed? ==>
              u == codec.decode(items[UserKey]).user
  {
    if UserKey !in items || items[UserKey] == "" then None
    else match codec.decode(items[UserKey])
      case Corrupt => None
      case Parsed(u) => u
  }

  /** `getStoredUser`: as `StoredUser` says; corrupt JSON is also removed. */
  method GetStoredUser(storage: LocalStorage, codec: UserCodec) returns (u: Option<UserData>)
    modifies storage
    ensures u == StoredUser(old(storage.items), codec)
    ensures var items := old(storage.items);
      if UserKey in items && items[UserKey] != "" && codec.decode(items[UserKey]).Corrupt?
      then storage.items == items - {UserKey}
      else storage.items == items
  {
    var saved := storage.GetItem(UserKey);
    if saved.None? || saved.value == "" {
      return None;
    }
    match codec.decode(saved.value)
    case Corrupt =>
      storage.RemoveItem(UserKey);
      u := None;
    case Parsed(v) =>
      u := v;
  }

  function Flip(t: Theme): (r: Theme)
    ensures r != t
  {
    if t == Light then Dark else Light
  }

  const ThemePatch := (t: Theme) => NoChange.(theme := Some(t))
  const LanguagePatch := (l: Language) => NoChange.(language := Some(l))

  // ---------------------------------------------------------------- the provider

  class Session {
    var user: Option<UserData>
    var language: Language
    var theme: Theme
    var lastError: Option<string>
    const api: ApiClient
    const storage: LocalStorage
    const codec: UserCodec

    function State(): SessionState
      reads this
    {
      SessionState(user, language, theme, lastError)
    }

    /** The request `updateUser(data)` sends from this state: the PUT of `data` to
        the user's URL, and none without a user or without an `_id`. */
    function Request(data: Patch): Option<RequestInit>
      reads this, api
    {
      if user.Some? && HasId(user.value) then Some(api.UpdateUserRequest(user.value.id.value, data)) else None
    }

    /** The token in memory is the stored one, and storage holds the encoded user
        exactly when a user is logged in. */
    ghost predicate Valid()
      reads this, api, storage
    {
      && api.storage == storage
      && api.authToken == storage.GetItem(TokenKey)
      && (user.Some? ==> storage.GetItem(UserKey) == Some(codec.encode(user.value)))
      && (user.None? ==> UserKey !in storage.items)
    }

    /** The initial state: the stored user, language and theme from it with the
        defaults, no error; then the persistence effect runs once. */
    constructor (api: ApiClient, codec: UserCodec)
      requires api.Synced()
      modifies api.storage
      ensures this.api == api && storage == api.storage && this.codec == codec
      ensures Valid()
      ensures user == StoredUser(old(api.storage.items), codec)
      ensures language == (if user.Some? then LanguageOf(user.value) else DefaultLanguage)
      ensures theme == (if user.Some? then ThemeOf(user.value) else DefaultTheme)
      ensures lastError.None?
      ensures api.authToken == old(api.authToken)
    {
      var u := GetStoredUser(api.storage, codec);
      this.api := api;
      storage := api.storage;
      this.codec := codec;
      user := u;
      language := if u.Some? then LanguageOf(u.value) else DefaultLanguage;
      theme := if u.Some? then ThemeOf(u.value) else DefaultTheme;
      lastError := None;
      new;
      Persist();
    }

    /** The effect on `[user]`: write the encoded user, or remove the key. */
    method Persist()
      requires api.storage == storage && api.authToken == storage.GetItem(TokenKey)
      modifies storage
      ensures Valid()
      ensures user.Some? ==> storage.items == old(storage.items)[UserKey := codec.encode(user.value)]
      ensures user.None? ==> storage.items == old(storage.items) - {UserKey}
    {
      assert TokenKey != UserKey by { assert TokenKey[6] != UserKey[6]; }
      if user.Some? {
        storage.SetItem(UserKey, codec.encode(user.value));
      } else {
        storage.RemoveItem(UserKey);
      }
    }

    method Login(userData: UserData, token: string)
      requires Valid()
      modifies this, api, storage
      ensures Valid()
      ensures State() == SessionState(Some(userData), LanguageOf(userData), ThemeOf(userData), None)
      ensures api.authToken == Some(token)
      ensures storage.items == old(storage.items)[TokenKey := token][UserKey := codec.encode(userData)]
    {
      api.SetAuthToken(token);
      user := Some(userData);
      lastError := None;
      language := LanguageOf(userData);
      theme := ThemeOf(userData);
      Persist();
    }

    method Logout()
      requires Valid()
      modifies this, api, storage
      ensures Valid()
      ensures State() == SessionState(None, DefaultLanguage, DefaultTheme, None)
      ensures api.authToken.None?
      ensures storage.items == old(storage.items) - {TokenKey} - {UserKey}
    {
      api.ClearAuthToken();
      user := None;
      lastError := None;
      language := DefaultLanguage;
      theme := DefaultTheme;
      Persist();
    }

    /** `clearLastError`. */
    method ClearLastError()
      modifies this
      ensures State() == old(State()).(lastError := None)
    {
      lastError := None;
    }

    /** `updateUser(data)`, with the remote call's outcome as a parameter. It
        returns the request it sent, if any, and the value it re-throws, if any. */
    method UpdateUser(data: Patch, outcome: RemoteOutcome) returns (sent: Option<RequestInit>, raised: Option<Thrown>)
      requires Valid()
      modifies this, storage
      ensures Valid()
      ensures State() == AfterUpdate(old(State()), data, outcome)
      ensures api.authToken == old(api.authToken)
      ensures storage.items - {UserKey} == old(storage.items) - {UserKey}
      ensures sent.Some? <==> old(user).Some? && HasId(old(user).value)
      ensures sent.Some? ==> sent.value == api.UpdateUserRequest(old(user).value.id.value, data)
      ensures sent == old(Request(data))
      ensures raised.Some? <==> sent.Some? && outcome.Rejected?
      ensures raised.Some? ==> raised.value == outcome.error
    {
      sent, raised := None, None;
      if user.None? {
        return;
      }
      var previous := user.value;
      ApplyLocally(data);
      if !HasId(previous) {
        Persist();
        return;
      }
      sent := Some(api.UpdateUserRequest(previous.id.value, data));
      raised := Settle(previous, outcome);
    }

    /** The optimistic part of `updateUser`: the spread user and, when the patch
        carries them, the new language and theme. */
    method ApplyLocally(data: Patch)
      requires user.Some?
      modifies this
      ensures State() == old(State()).(
        user := Some(Spread(old(user).value, data)),
        language := if data.language.Some? then data.language.value else old(language),
        theme := if data.theme.Some? then data.theme.value else old(theme))
    {
      user := Some(Spread(user.value, data));
      if data.language.Some? { language := data.language.value; }
      if data.theme.Some? { theme := data.theme.value; }
    }

    /** The `try`/`catch` around the remote call: adopt the server's copy, or roll
        back to the snapshot `previous`, record the message and re-throw. */
    method Settle(previous: UserData, outcome: RemoteOutcome) returns (raised: Option<Thrown>)
      requires api.storage == storage && api.authToken == storage.GetItem(TokenKey)
      modifies this, storage
      ensures Valid()
      ensures outcome.Saved? ==>
        State() == SessionState(Some(outcome.user), LanguageOf(outcome.user), ThemeOf(outcome.user), None)
      ensures outcome.Rejected? ==>
        State() == SessionState(Some(previous), LanguageOf(previous), ThemeOf(previous), Some(ErrorMessage(outcome.error)))
      ensures raised == if outcome.Rejected? then Some(outcome.error) else None
      ensures storage.items - {UserKey} == old(storage.items) - {UserKey}
    {
      raised := None;
      match outcome {
        case Saved(updated) =>
          user := Some(updated);
          lastError := None;
          language := LanguageOf(updated);
          theme := ThemeOf(updated);
        case Rejected(e) =>
          lastError := Some(ErrorMessage(e));
          user := Some(previous);
          language := LanguageOf(previous);
          theme := ThemeOf(previous);
          raised := Some(e);
      }
      Persist();
    }

    /** `toggleTheme`: flip the theme, then save it when a user is logged in; a
        rejection is swallowed. */
    method ToggleTheme(outcome: RemoteOutcome) returns (sent: Option<RequestInit>)
      requires Valid()
      modifies this, storage
      ensures Valid()
      ensures var next := Flip(old(theme));
        && (old(user).None? ==> State() == old(State()).(theme := next) && sent.None?)
        && (old(user).Some? ==> State() == AfterUpdate(old(State()).(theme := next), ThemePatch(next), outcome))
      ensures sent == old(Request(ThemePatch(Flip(theme))))
      ensures api.authToken == old(api.authToken)
    {
      sent := None;
      var next := Flip(theme);
      theme := next;
      if user.Some? {
        var swallowed;
        sent, swallowed := UpdateUser(ThemePatch(next), outcome);
      }
    }

    /** `setLanguage(lang)`: set the language, then save it when a user is logged
        in; a rejection is swallowed. */
    method SetLanguage(lang: Language, outcome: RemoteOutcome) returns (sent: Option<RequestInit>)
      requires Valid()
      modifies this, storage
      ensures Valid()
      ensures old(user).None? ==> State() == old(State()).(language := lang) && sent.None?
      ensures old(user).Some? ==> State() == AfterUpdate(old(State()).(language := lang), LanguagePatch(lang), outcome)
      ensures sent == old(Request(LanguagePatch(lang)))
      ensures api.authToken == old(api.authToken)
    {
      sent := None;
      language := lang;
      if user.Some? {
        var swallowed;
        sent, swallowed := UpdateUser(LanguagePatch(lang), outcome);
      }
    }
  }
}
