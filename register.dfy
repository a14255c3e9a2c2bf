/**
 * The registration form of `components/Register.tsx`: nine text fields, a
 * local validation, one POST of the new user, and the mapping of the
 * server's answer to the text shown under the form.
 */
module Register {

  import opened Js
  import opened Http

  datatype Field = Login | LastName | FirstName | MiddleName | BirthDate | Phone | Email | Password | ConfirmPassword

  datatype FormData = FormData(
    login: string,
    lastName: string,
    firstName: string,
    middleName: string,
    birthDate: string,
    phone: string,
    email: string,
    password: string,
    confirmPassword: string)

  const EMPTY_FORM := FormData("", "", "", "", "", "", "", "", "")

  const FIELDS_REQUIRED := "Все поля должны быть заполнены!"
  const PASSWORDS_DIFFER := "Пароли не совпадают!"
  const GENERIC_FAILURE := "Что-то пошло не так, попробуйте снова."
  const LOGIN_TAKEN_MARK := "Логин уже занят"
  const LOGIN_TAKEN := "Этот логин уже занят, выберите другой."
  const EMAIL_TAKEN_MARK := "Email уже занят"
  const EMAIL_TAKEN := "Этот email уже зарегистрирован."
  const SERVER_FAILURE := "Ошибка на сервере, попробуйте позже."
  const NO_CONNECTION := "Не удалось подключиться к серверу. Проверьте интернет и попробуйте снова."
  const LOGIN_SCREEN := "Login"
  const CUSTOMER_ROLE := 4

  function Get(f: FormData, field: Field): string
  {
    match field
    case Login => f.login
    case LastName => f.lastName
    case FirstName => f.firstName
    case MiddleName => f.middleName
    case BirthDate => f.birthDate
    case Phone => f.phone
    case Email => f.email
    case Password => f.password
    case ConfirmPassword => f.confirmPassword
  }

  /** `{...prev, [name]: value}`: one field takes the new value and every other keeps its own. */
  function WithField(f: FormData, field: Field, value: string): (r: FormData)
    ensures Get(r, field) == value
    ensures forall other :: other != field ==> Get(r, other) == Get(f, other)
  {
    match field
    case Login => f.(login := value)
    case LastName => f.(lastName := value)
    case FirstName => f.(firstName := value)
    case MiddleName => f.(middleName := value)
    case BirthDate => f.(birthDate := value)
    case Phone => f.(phone := value)
    case Email => f.(email := value)
    case Password => f.(password := value)
    case ConfirmPassword => f.(confirmPassword := value)
  }

  /** The local checks, in the order the submit handler makes them: None when the form may be sent. */
  function Validate(f: FormData): (r: Option<string>)
    ensures r == None <==> (forall field :: Get(f, field) != "") && f.password == f.confirmPassword
    ensures (exists field :: Get(f, field) == "") ==> r == Some(FIELDS_REQUIRED)
    ensures (forall field :: Get(f, field) != "") && f.password != f.confirmPassword ==> r == Some(PASSWORDS_DIFFER)
  {
    if f.login == "" || f.firstName == "" || f.lastName == "" || f.middleName == "" || f.birthDate == ""
       || f.phone == "" || f.email == "" || f.password == "" || f.confirmPassword == "" then
      assert Get(f, Login) == "" || Get(f, FirstName) == "" || Get(f, LastName) == "" || Get(f, MiddleName) == ""
          || Get(f, BirthDate) == "" || Get(f, Phone) == "" || Get(f, Email) == "" || Get(f, Password) == ""
          || Get(f, ConfirmPassword) == "";
      Some(FIELDS_REQUIRED)
    else if f.password != f.confirmPassword then Some(PASSWORDS_DIFFER)
    else None
  }

  /**
   * `${lastName} ${firstName} ${middleName}`.trim(): the template with only
   * whitespace cut from either end, so the name never starts or ends with
   * whitespace and is never longer than the three parts with two spaces.
   */
  function FullName(f: FormData): (name: string)
    ensures exists i :: PaddedAt(f.lastName + " " + f.firstName + " " + f.middleName, name, i)
    ensures name == [] || (!IsWhitespace(name[0]) && !IsWhitespace(name[|name| - 1]))
    ensures |name| <= |f.lastName| + |f.firstName| + |f.middleName| + 2
  {
    Trim(f.lastName + " " + f.firstName + " " + f.middleName)
  }

  /** The JSON body of the new user: the password goes as `passwordHash`, the role is always the customer's. */
  function NewUser(f: FormData): (b: Body)
    ensures b.NewUserBody?
    ensures b.login == f.login && b.birthDate == f.birthDate && b.phone == f.phone && b.email == f.email
    ensures b.passwordHash == f.password && b.roleId == CUSTOMER_ROLE
    ensures b.fullName == FullName(f)
  {
    NewUserBody(f.login, FullName(f), f.birthDate, f.phone, f.email, f.password, CUSTOMER_ROLE)
  }

  /** `sub` occurs in `s` starting at index `i`. */
  predicate OccursAt(s: string, sub: string, i: int)
  {
    0 <= i <= |s| - |sub| && s[i..i + |sub|] == sub
  }

  /** `s.includes(sub)`: the empty string occurs everywhere, and nothing longer than `s` occurs in it. */
  predicate Contains(s: string, sub: string)
    ensures sub == [] ==> Contains(s, sub)
    ensures Contains(s, sub) ==> |sub| <= |s|
  {
    assert sub == [] ==> OccursAt(s, sub, 0);
    exists i | 0 <= i <= |s| - |sub| :: OccursAt(s, sub, i)
  }

  /** The body of a non-OK answer, as far as the handler reads it. */
  datatype ErrorBody =
    | NotJson
      /** JSON whose `message` is missing, or of a type without `includes`: calling `.includes` on it throws. */
    | NoMessage
    | WithMessage(message: string)

  /** The outcome of the POST: no answer at all, or an answer with its `ok` flag and body. */
  datatype Reply = NetworkFailure | HttpReply(ok: bool, body: ErrorBody)

  /** The text for a non-OK answer: the two known conflicts get their own texts, any other non-empty message is shown as sent. */
  function ErrorMessageFor(body: ErrorBody): (r: string)
    ensures !body.WithMessage? ==> r == SERVER_FAILURE
    ensures body.WithMessage? && Contains(body.message, LOGIN_TAKEN_MARK) ==> r == LOGIN_TAKEN
    ensures body.WithMessage? && !Contains(body.message, LOGIN_TAKEN_MARK) && Contains(body.message, EMAIL_TAKEN_MARK) ==> r == EMAIL_TAKEN
    ensures body.WithMessage? && !Contains(body.message, LOGIN_TAKEN_MARK) && !Contains(body.message, EMAIL_TAKEN_MARK)
            ==> r == (if body.message != "" then body.message else GENERIC_FAILURE)
    ensures r != ""
  {
    match body
    case NotJson => SERVER_FAILURE
    case NoMessage => SERVER_FAILURE
    case WithMessage(m) =>
      if Contains(m, LOGIN_TAKEN_MARK) then LOGIN_TAKEN
      else if Contains(m, EMAIL_TAKEN_MARK) then EMAIL_TAKEN
      else if m != "" then m
      else GENERIC_FAILURE
  }

  /** What one submit leaves behind: the request sent (if any), the error shown, and where it navigates. */
  datatype SubmitResult = SubmitResult(request: Option<Request>, error: Option<string>, navigateTo: Option<string>)

  /** `handleSubmit()` on the form `f`, with `reply` what the POST brings back if it is sent. */
  function Submit(f: FormData, reply: Reply): (r: SubmitResult)
    ensures r.request.Some? <==> Validate(f) == None
    ensures r.request.Some? ==> r.request.value == Request(Post, "/users", NewUser(f))
    ensures Validate(f).Some? ==> r.error == Validate(f) && r.navigateTo == None
    ensures r.navigateTo.Some? <==> Validate(f) == None && reply.HttpReply? && reply.ok
    ensures r.navigateTo.Some? ==> r.navigateTo.value == LOGIN_SCREEN && r.error == None
    ensures r.navigateTo.None? ==> r.error.Some? && r.error.value != ""
    ensures Validate(f) == None && reply.NetworkFailure? ==> r.error == Some(NO_CONNECTION)
    ensures Validate(f) == None && reply.HttpReply? && !reply.ok ==> r.error == Some(ErrorMessageFor(reply.body))
  {
    match Validate(f)
    case Some(message) => SubmitResult(None, Some(message), None)
    case None =>
      var request := Some(Request(Post, "/users", NewUser(f)));
      match reply
      case NetworkFailure => SubmitResult(request, Some(NO_CONNECTION), None)
      case HttpReply(ok, body) =>
        if ok then SubmitResult(request, None, Some(LOGIN_SCREEN))
        else SubmitResult(request, Some(ErrorMessageFor(body)), None)
  }

  // ---------------------------------------------------------------------
  // Properties.
  // ---------------------------------------------------------------------

  /** A string contains itself, and any string with it in the middle. */
  lemma ContainsInfix(a: string, sub: string, b: string)
    ensures Contains(a + sub + b, sub)
  {
    var s := a + sub + b;
    assert s[|a|..|a| + |sub|] == sub;
    assert OccursAt(s, sub, |a|);
  }

  /** A message naming both conflicts is reported as the login conflict: the login check comes first. */
  lemma LoginConflictWins(a: string, b: string, c: string)
    ensures ErrorMessageFor(WithMessage(a + LOGIN_TAKEN_MARK + b + EMAIL_TAKEN_MARK + c)) == LOGIN_TAKEN
  {
    ContainsInfix(a, LOGIN_TAKEN_MARK, b + EMAIL_TAKEN_MARK + c);
    assert a + LOGIN_TAKEN_MARK + (b + EMAIL_TAKEN_MARK + c) == a + LOGIN_TAKEN_MARK + b + EMAIL_TAKEN_MARK + c;
  }

  /** The server's wording around the known phrase does not matter: the email conflict text is shown. */
  lemma EmailConflictRecognised(a: string, b: string)
    requires !Contains(a + EMAIL_TAKEN_MARK + b, LOGIN_TAKEN_MARK)
    ensures ErrorMessageFor(WithMessage(a + EMAIL_TAKEN_MARK + b)) == EMAIL_TAKEN
  {
    ContainsInfix(a, EMAIL_TAKEN_MARK, b);
  }

  /** An empty field is reported even when the passwords also differ: the emptiness check comes first. */
  lemma EmptyFieldReportedFirst(f: FormData, field: Field)
    requires Get(f, field) == "" && f.password != f.confirmPassword
    ensures Submit(f, NetworkFailure) == SubmitResult(None, Some(FIELDS_REQUIRED), None)
  {
  }

  /** The confirmation field is checked locally but never sent. */
  lemma ConfirmationNotSent(f: FormData, other: string)
    ensures NewUser(f.(confirmPassword := other)) == NewUser(f)
  {
  }

  /** Parts without outer whitespace are joined with single spaces, unchanged by the trim. */
  lemma FullNameOfCleanParts(f: FormData)
    requires f.lastName != "" && f.middleName != ""
    requires !IsWhitespace(f.lastName[0]) && !IsWhitespace(f.middleName[|f.middleName| - 1])
    ensures FullName(f) == f.lastName + " " + f.firstName + " " + f.middleName
  {
    var joined := f.lastName + " " + f.firstName + " " + f.middleName;
    assert joined[0] == f.lastName[0];
    assert joined[|joined| - 1] == f.middleName[|f.middleName| - 1];
    TrimIdentity(joined);
  }

  /** Filling in all nine fields of the empty form, with matching passwords, gives a form that is sent. */
  lemma FilledFormIsSent(values: seq<string>, reply: Reply)
    requires |values| == 8 && forall i :: 0 <= i < 8 ==> values[i] != ""
    ensures var f := WithField(WithField(WithField(WithField(WithField(WithField(WithField(WithField(WithField(
                       EMPTY_FORM, Login, values[0]), LastName, values[1]), FirstName, values[2]), MiddleName, values[3]),
                       BirthDate, values[4]), Phone, values[5]), Email, values[6]), Password, values[7]), ConfirmPassword, values[7]);
      Submit(f, reply).request == Some(Request(Post, "/users", NewUser(f)))
  {
  }

  /** The form's state. */
  class RegisterScreen {
    var formData: FormData
    var error: Option<string>
    var success: Option<string>
    var loading: bool
    var showPassword: bool
    var showConfirmPassword: bool

    constructor ()
      ensures formData == EMPTY_FORM && error == None && success == None && !loading
      ensures !showPassword && !showConfirmPassword
    {
      formData := EMPTY_FORM;
      error, success, loading := None, None, false;
      showPassword, showConfirmPassword := false, false;
    }

    /** `handleInputChange(name, value)`. */
    method HandleInputChange(field: Field, value: string)
      modifies this
      ensures formData == WithField(old(formData), field, value)
      ensures error == old(error) && success == old(success) && loading == old(loading)
      ensures showPassword == old(showPassword) && showConfirmPassword == old(showConfirmPassword)
    {
      formData := WithField(formData, field, value);
    }

    /** The eye icon of the password field. */
    method ToggleShowPassword()
      modifies this
      ensures showPassword == !old(showPassword)
      ensures formData == old(formData) && error == old(error) && loading == old(loading)
      ensures showConfirmPassword == old(showConfirmPassword) && success == old(success)
    {
      showPassword := !showPassword;
    }

    /** The eye icon of the confirmation field. */
    method ToggleShowConfirmPassword()
      modifies this
      ensures showConfirmPassword == !old(showConfirmPassword)
      ensures formData == old(formData) && error == old(error) && loading == old(loading)
      ensures showPassword == old(showPassword) && success == old(success)
    {
      showConfirmPassword := !showConfirmPassword;
    }

    /** `handleSubmit()`: the form itself is kept, `success` is never set, and loading ends on every path. */
    method HandleSubmit(reply: Reply) returns (request: Option<Request>, navigateTo: Option<string>)
      modifies this
      ensures var s := Submit(old(formData), reply);
        request == s.request && error == s.error && navigateTo == s.navigateTo
      ensures success == None && !loading
      ensures formData == old(formData)
      ensures showPassword == old(showPassword) && showConfirmPassword == old(showConfirmPassword)
    {
      error := None;
      success := None;
      loading := true;
      var check := Validate(formData);
      if check.Some? {
        error := check;
        loading := false;
        return None, None;
      }
      request := Some(Request(Post, "/users", NewUser(formData)));
      navigateTo := None;
      match reply {
        case NetworkFailure =>
          error := Some(NO_CONNECTION);
        case HttpReply(ok, body) =>
          if ok {
            navigateTo := Some(LOGIN_SCREEN);
          } else {
            error := Some(ErrorMessageFor(body));
          }
      }
      loading := false;
    }
  }
}
