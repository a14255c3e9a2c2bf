/**
 * The sign-in form of `components/Login.tsx`: two fields, a local check,
 * one POST of the credentials, and on success a call to the session's
 * `login` followed by navigation to the welcome screen.
 */
module Login {

  import opened Js
  import opened Http
  import Auth

  datatype LoginData = LoginData(login: string, password: string)

  datatype Field = LoginField | PasswordField

  const EMPTY_LOGIN := LoginData("", "")
  const CREDENTIALS_REQUIRED := "Введите логин и пароль!"
  const WRONG_CREDENTIALS := "Неверный логин или пароль!"
  const NO_CONNECTION := "Не удалось подключиться к серверу"
  const WELCOME_SCREEN := "Welcome"
  const LOGIN_PATH := "/users/login"

  /** `{...prev, [name]: value}` on the two fields. */
  function WithField(d: LoginData, field: Field, value: string): (r: LoginData)
    ensures field == LoginField ==> r == LoginData(value, d.password)
    ensures field == PasswordField ==> r == LoginData(d.login, value)
  {
    match field
    case LoginField => d.(login := value)
    case PasswordField => d.(password := value)
  }

  /** The `data` member of the success body, with the two members the handler reads. */
  datatype UserRecord = UserRecord(id: Option<int>, fullName: Option<string>)

  /** The response body as far as the handler reads it. */
  datatype LoginBody =
    | NotJson
    | JsonNull
    | JsonObject(data: Option<UserRecord>, error: Option<string>)
      /** A JSON string, number, boolean or array: reading `data` or `error` of it gives undefined. */
    | JsonOther

  /** The outcome of the POST: no answer at all, or an answer with its `ok` flag and body. */
  datatype Reply = NetworkFailure | HttpReply(ok: bool, body: LoginBody)

  /** The signed-in session when the success body is usable: `data`, `data.id` and `data.fullName` all truthy. */
  function SessionOf(body: LoginBody): (r: Option<(Auth.User, int)>)
    ensures r.Some? ==> r.value.1 != 0 && r.value.0.fullName != ""
    ensures r.Some? <==> body.JsonObject? && body.data.Some? && body.data.value.id.Some? && body.data.value.id.value != 0
                         && body.data.value.fullName.Some? && body.data.value.fullName.value != ""
    ensures r.Some? ==> r.value == (Auth.User(body.data.value.fullName.value), body.data.value.id.value)
  {
    match body
    case JsonObject(Some(UserRecord(Some(id), Some(fullName))), _) =>
      if id != 0 && fullName != "" then Some((Auth.User(fullName), id)) else None
    case _ => None
  }

  /** What one submit leaves behind: the request sent, the session to sign in, the error shown, and where it navigates. */
  datatype SubmitResult = SubmitResult(
    request: Option<Request>,
    session: Option<(Auth.User, int)>,
    error: Option<string>,
    navigateTo: Option<string>)

  /**
   * `handleSubmit()`. Every throw inside the try (no answer, a body that is
   * not JSON, a null body, a success body without a usable user) ends in the
   * same connection message. A rejection whose body is JSON but not an
   * object has no `error` member, so it shows the fixed wrong-credentials text.
   */
  function Submit(d: LoginData, reply: Reply): (r: SubmitResult)
    ensures d.login == "" || d.password == "" ==> r == SubmitResult(None, None, Some(CREDENTIALS_REQUIRED), None)
    ensures d.login != "" && d.password != "" ==> r.request == Some(Request(Post, LOGIN_PATH, CredentialsBody(d.login, d.password)))
    ensures r.session.Some? <==> d.login != "" && d.password != "" && reply.HttpReply? && reply.ok && SessionOf(reply.body).Some?
    ensures r.session.Some? ==> r.session == SessionOf(reply.body) && r.error == None && r.navigateTo == Some(WELCOME_SCREEN)
    ensures r.session.None? ==> r.navigateTo == None && r.error.Some?
    ensures d.login != "" && d.password != "" && reply.HttpReply? && !reply.ok && reply.body.JsonObject? ==>
              r.error == Some(OrElse(reply.body.error, WRONG_CREDENTIALS))
    ensures d.login != "" && d.password != "" &&
            (reply.NetworkFailure? || (reply.ok && SessionOf(reply.body).None?) || (!reply.ok && (reply.body.NotJson? || reply.body.JsonNull?))) ==>
              r.error == Some(NO_CONNECTION)
    ensures d.login != "" && d.password != "" && reply.HttpReply? && !reply.ok && reply.body.JsonOther? ==>
              r.error == Some(WRONG_CREDENTIALS)
  {
    if d.login == "" || d.password == "" then SubmitResult(None, None, Some(CREDENTIALS_REQUIRED), None)
    else
      var request := Some(Request(Post, LOGIN_PATH, CredentialsBody(d.login, d.password)));
      match reply
      case NetworkFailure => SubmitResult(request, None, Some(NO_CONNECTION), None)
      case HttpReply(ok, body) =>
        if ok then
          match SessionOf(body)
          case Some(session) => SubmitResult(request, Some(session), None, Some(WELCOME_SCREEN))
          case None => SubmitResult(request, None, Some(NO_CONNECTION), None)
        else
          match body
          case JsonObject(_, error) => SubmitResult(request, None, Some(OrElse(error, WRONG_CREDENTIALS)), None)
          case JsonOther => SubmitResult(request, None, Some(OrElse(None, WRONG_CREDENTIALS)), None)
          case _ => SubmitResult(request, None, Some(NO_CONNECTION), None)
  }

  /**
   * A successful sign-in is persisted: its id is never 0, so the save effect
   * stores it, and the next load restores the very same session (given a
   * JSON codec that round-trips the user).
   */
  lemma SignedInSessionSurvivesRestart(d: LoginData, reply: Reply, json: Auth.UserJson,
                                       entries: map<string, string>, before: Auth.SessionFields)
    requires Submit(d, reply).session.Some?
    requires Auth.RoundTrips(json, Submit(d, reply).session.value.0)
    ensures var (user, id) := Submit(d, reply).session.value;
      Auth.Loaded(Auth.SavedEntries(entries, Some(user), Some(Int(id)), json, None), false, json, before)
        == Auth.SessionFields(Some(user), Some(Int(id)))
  {
    var (user, id) := Submit(d, reply).session.value;
    Auth.SaveThenLoad(entries, user, id, json, before);
  }

  /** A success answer whose user has id 0 is treated as a malformed answer: no session, the connection message. */
  lemma ZeroIdIsRejected(d: LoginData, fullName: string, error: Option<string>)
    requires d.login != "" && d.password != ""
    ensures Submit(d, HttpReply(true, JsonObject(Some(UserRecord(Some(0), Some(fullName))), error)))
         == SubmitResult(Some(Request(Post, LOGIN_PATH, CredentialsBody(d.login, d.password))), None, Some(NO_CONNECTION), None)
  {
  }

  /** A rejected sign-in shows the server's `error` text when it is non-empty, and the fixed text otherwise. */
  lemma RejectionText(d: LoginData, data: Option<UserRecord>, error: string)
    requires d.login != "" && d.password != ""
    ensures Submit(d, HttpReply(false, JsonObject(data, Some(error)))).error
         == Some(if error != "" then error else WRONG_CREDENTIALS)
  {
  }

  /** The form's state. */
  class LoginScreen {
    var loginData: LoginData
    var error: Option<string>
    var loading: bool

    constructor ()
      ensures loginData == EMPTY_LOGIN && error == None && !loading
    {
      loginData, error, loading := EMPTY_LOGIN, None, false;
    }

    /** `handleInputChange(name, value)`. */
    method HandleInputChange(field: Field, value: string)
      modifies this
      ensures loginData == WithField(old(loginData), field, value)
      ensures error == old(error) && loading == old(loading)
    {
      loginData := WithField(loginData, field, value);
    }

    /**
     * `handleSubmit()` against the enclosing session: on success the session
     * holds the answered user and id; otherwise the session is untouched.
     * Loading ends on every path and the form keeps its contents.
     */
    method HandleSubmit(auth: Auth.AuthState, reply: Reply) returns (request: Option<Request>, navigateTo: Option<string>)
      modifies this, auth
      ensures var s := Submit(old(loginData), reply);
        && request == s.request && navigateTo == s.navigateTo && error == s.error
        && (s.session.Some? ==> auth.user == Some(s.session.value.0) && auth.userId == Some(Int(s.session.value.1)))
        && (s.session.None? ==> auth.user == old(auth.user) && auth.userId == old(auth.userId))
      ensures auth.isAuthReady == old(auth.isAuthReady)
      ensures loginData == old(loginData) && !loading
    {
      error := None;
      loading := true;
      var s := Submit(loginData, reply);
      request := s.request;
      navigateTo := s.navigateTo;
      error := s.error;
      if s.session.Some? {
        auth.Login(s.session.value.0, Int(s.session.value.1));
      }
      loading := false;
    }
  }
}
