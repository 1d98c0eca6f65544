/** The sign-in/sign-up page: the client's password rule and `handleSubmit`. */
module AuthPage {
  import opened Wrappers
  import opened Text
  import opened Json
  import opened Validators
  import opened Api
  import opened AppContext

  const WeakPasswordMessage := "La contraseña debe tener 8 caracteres, 1 mayúscula y 1 número."
  const AuthFallbackMessage := "No se pudo completar la autenticación."
  const ProfileRoute := "/profile"

  /** `validatePassword`: the same regular expression the server applies. */
  predicate ValidatePassword(password: string) {
    PasswordPattern(password)
  }

  /** The client and the server agree on which passwords are strong enough. */
  lemma ClientRuleMatchesServer(password: string)
    ensures ValidatePassword(password) <==> PasswordValue(Some(JStr(password))).Valid?
    ensures ValidatePassword(password) <==> StrongPassword(password)
  {
    PasswordPatternMeaning(password);
  }

  /** `error.message || fallback`. */
  function SubmitError(message: string): (m: string)
    ensures m != ""
    ensures message != "" ==> m == message
  {
    if message != "" then message else AuthFallbackMessage
  }

  /** The payload `handleSubmit` sends: the name is always included, also at login. */
  function SubmitPayload(name: string, email: string, password: string): (p: AuthPayload)
    ensures p.name == Some(name) && p.email == email && p.password == password
    ensures "name" in AuthPayloadJson(p).fields
  {
    AuthPayload(email, password, Some(name))
  }

  class AuthForm {
    var isLogin: bool
    var email: string
    var password: string
    var name: string
    var error: string
    var isSubmitting: bool
    var route: Option<string>

    constructor ()
      ensures isLogin && email == "" && password == "" && name == "" && error == ""
      ensures !isSubmitting && route.None?
    {
      isLogin := true;
      email := "";
      password := "";
      name := "";
      error := "";
      isSubmitting := false;
      route := None;
    }

    /** `handleSubmit`: in sign-up mode a weak password stops the submit with its
        message; otherwise the request goes out and on success the session logs
        in and the page moves to the profile; on failure the error is shown. */
    method HandleSubmit(session: Session, outcome: Result<AuthResponse, string>)
      returns (sent: Option<RequestInit>)
      requires session.Valid()
      modifies this`isSubmitting, this`error, this`route, session, session.api, session.storage
      ensures session.Valid()
      ensures isLogin == old(isLogin) && email == old(email) && password == old(password) && name == old(name)
      ensures !old(isLogin) && !ValidatePassword(old(password)) ==>
        sent.None? && error == WeakPasswordMessage && isSubmitting == old(isSubmitting)
        && session.State() == old(session.State())
        && session.storage.items == old(session.storage.items) && route == old(route)
      ensures old(isLogin) || ValidatePassword(old(password)) ==>
        && sent.Some? && !isSubmitting && sent.value.verb == "POST"
        && sent.value.path == AuthEndpoint(if old(isLogin) then LoginMode else RegisterMode)
        && sent.value.body == Some(AuthPayloadJson(SubmitPayload(old(name), old(email), old(password))))
      ensures (old(isLogin) || ValidatePassword(old(password))) && outcome.Ok? ==>
        && error == "" && route == Some(ProfileRoute)
        && session.State() == SessionState(Some(outcome.value.user), LanguageOf(outcome.value.user),
                                           ThemeOf(outcome.value.user), None)
        && session.api.authToken == Some(outcome.value.token)
        && session.storage.items == old(session.storage.items)[TokenKey := outcome.value.token]
                                                              [UserKey := session.codec.encode(outcome.value.user)]
      ensures (old(isLogin) || ValidatePassword(old(password))) && outcome.Err? ==>
        && error == SubmitError(outcome.error) && route == old(route)
        && session.State() == old(session.State())
        && session.storage.items == old(session.storage.items)
    {
      error := "";
      if !isLogin && !ValidatePassword(password) {
        error := WeakPasswordMessage;
        sent := None;
        return;
      }
      var request := Submit(session, outcome);
      sent := Some(request);
    }

    /** A successful response: the session logs in and the page moves to the profile. */
    method Enter(session: Session, response: AuthResponse)
      requires session.Valid()
      modifies this`route, session, session.api, session.storage
      ensures session.Valid() && route == Some(ProfileRoute)
      ensures session.State() == SessionState(Some(response.user), LanguageOf(response.user), ThemeOf(response.user), None)
      ensures session.api.authToken == Some(response.token)
      ensures session.storage.items == old(session.storage.items)[TokenKey := response.token]
                                                                 [UserKey := session.codec.encode(response.user)]
    {
      session.Login(response.user, response.token);
      route := Some(ProfileRoute);
    }

    /** The part of `handleSubmit` past the password check: the request, then the
        login and the move to the profile, or the error message. */
    method Submit(session: Session, outcome: Result<AuthResponse, string>) returns (sent: RequestInit)
      requires session.Valid()
      modifies this`isSubmitting, this`error, this`route, session, session.api, session.storage
      ensures session.Valid()
      ensures !isSubmitting && sent.verb == "POST"
      ensures sent.path == AuthEndpoint(if old(isLogin) then LoginMode else RegisterMode)
      ensures sent.body == Some(AuthPayloadJson(SubmitPayload(old(name), old(email), old(password))))
      ensures outcome.Ok? ==>
        && error == old(error) && route == Some(ProfileRoute)
        && session.State() == SessionState(Some(outcome.value.user), LanguageOf(outcome.value.user),
                                           ThemeOf(outcome.value.user), None)
        && session.api.authToken == Some(outcome.value.token)
        && session.storage.items == old(session.storage.items)[TokenKey := outcome.value.token]
                                                              [UserKey := session.codec.encode(outcome.value.user)]
      ensures outcome.Err? ==>
        && error == SubmitError(outcome.error) && route == old(route)
        && session.State() == old(session.State())
        && session.storage.items == old(session.storage.items)
    {
      isSubmitting := true;
      var mode := if isLogin then LoginMode else RegisterMode;
      var result;
      sent, result := session.api.AuthRequest(mode, SubmitPayload(name, email, password), outcome);
      if result.Ok? {
        assert TokenKey != UserKey by { assert TokenKey[6] != UserKey[6]; }
        assert session.Valid();
        Enter(session, result.value);
      } else {
        error := SubmitError(result.error);
      }
      isSubmitting := false;
    }
  }
}
