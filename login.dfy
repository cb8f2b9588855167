/**
 * The login / registration form: local validation, the choice of endpoint
 * by mode, storing the returned token, and the error shown on failure.
 */
module Login {
  import opened Wrappers
  import opened Api
  import opened Session

  const RegisterEndpoint := "/auth/register"
  const LoginEndpoint := "/auth/login"

  const MissingFieldsText := "Пожалуйста, заполните все обязательные поля"
  const MissingUsernameText := "Пожалуйста, введите имя пользователя"
  const SubmitFallback := "Ошибка при отправке данных"
  const GenericErrorText := "Произошла ошибка. Попробуйте снова."
  const RegisteredText := "Регистрация успешна! Готов к магии?"
  const LoggedInText := "Авторизация успешна! Давай планировать!"

  /** The form's three inputs. */
  datatype Credentials = Credentials(username: string, email: string, password: string)

  datatype Field = Username | Email | Password

  function FieldOf(c: Credentials, f: Field): string {
    match f
    case Username => c.username
    case Email => c.email
    case Password => c.password
  }

  /** The form after typing `value` into the input named `f`. */
  function WithField(c: Credentials, f: Field, value: string): (r: Credentials)
    ensures FieldOf(r, f) == value
    ensures forall g :: g != f ==> FieldOf(r, g) == FieldOf(c, g)
  {
    match f
    case Username => c.(username := value)
    case Email => c.(email := value)
    case Password => c.(password := value)
  }

  /** The success body of the auth endpoints: the `token` field, if present. */
  datatype AuthBody = AuthBody(token: Option<string>)

  /** Local validation: the error to show, or `None` when the request may be
      sent. Email and password are always required; the username only in
      register mode. */
  function ValidationError(form: Credentials, isRegister: bool): (e: Option<string>)
    ensures e == None <==> form.email != "" && form.password != "" && (isRegister ==> form.username != "")
    ensures form.email == "" || form.password == "" ==> e == Some(MissingFieldsText)
    ensures form.email != "" && form.password != "" && isRegister && form.username == "" ==>
              e == Some(MissingUsernameText)
  {
    if form.email == "" || form.password == "" then Some(MissingFieldsText)
    else if isRegister && form.username == "" then Some(MissingUsernameText)
    else None
  }

  /** Login mode never looks at the username. */
  lemma LoginIgnoresUsername(form: Credentials, name: string)
    ensures ValidationError(form.(username := name), false) == ValidationError(form, false)
  {
  }

  function Endpoint(isRegister: bool): (p: string)
    ensures p == RegisterEndpoint <==> isRegister
    ensures p == LoginEndpoint <==> !isRegister
  {
    if isRegister then RegisterEndpoint else LoginEndpoint
  }

  /** What `localStorage.setItem` stores for the body's token: the string
      itself, or "undefined" when the field is missing. */
  function StoredToken(body: AuthBody): (t: string)
    ensures body.token.Some? ==> t == body.token.value
    ensures body.token.None? ==> t == "undefined"
  {
    body.token.GetOr("undefined")
  }

  /** The error text a failed submit shows, both inline and as a toast. */
  function SubmitErrorText(reply: Reply<AuthBody>): (t: string)
    requires !reply.Ok?
    ensures reply == NetworkFailure(FetchFailed) ==> t == ConnectivityText
    ensures reply.NetworkFailure? && reply.message !in {"", FetchFailed} ==> t == reply.message
    ensures reply == NetworkFailure("") ==> t == GenericErrorText
    ensures reply.HttpError? && reply.error == Some(FetchFailed) ==> t == ConnectivityText
    ensures reply.HttpError? && reply.error.GetOr("") == "" ==> t == SubmitFallback
    ensures reply.HttpError? && reply.error.GetOr("") !in {"", FetchFailed} ==> t == reply.error.value
    ensures t != ""
  {
    Notice(ThrownMessage(reply, SubmitFallback), GenericErrorText)
  }

  class LoginForm {
    const store: TokenStore
    var isRegister: bool
    var form: Credentials
    var error: string
    var isLoading: bool

    constructor (store: TokenStore)
      ensures this.store == store
      ensures !isRegister && form == Credentials("", "", "") && error == "" && !isLoading
    {
      this.store := store;
      isRegister := false;
      form := Credentials("", "", "");
      error := "";
      isLoading := false;
    }

    /** Typing changes only the named input. */
    method InputChange(f: Field, value: string)
      modifies this
      ensures form == WithField(old(form), f, value)
      ensures isRegister == old(isRegister) && error == old(error) && isLoading == old(isLoading)
    {
      form := WithField(form, f, value);
    }

    /** The mode link flips between login and registration. */
    method ToggleMode()
      modifies this
      ensures isRegister == !old(isRegister)
      ensures form == old(form) && error == old(error) && isLoading == old(isLoading)
    {
      isRegister := !isRegister;
    }

    /** Submitting: the previous error is cleared, the form validated; a
        valid form is posted to the endpoint of the current mode. On
        success the token is stored and the user sent to /all; on failure
        the token is left alone and the error shown. `isLoading` is false on
        every exit. */
    method Submit(reply: Reply<AuthBody>) returns (fx: seq<Effect>)
      modifies this, store
      ensures !isLoading
      ensures form == old(form) && isRegister == old(isRegister)
      ensures var invalid := ValidationError(old(form), old(isRegister));
              && (invalid.Some? ==> error == invalid.value && fx == [] && store.token == old(store.token))
              && (invalid.None? ==> Requests(fx) == [PostAuth(Endpoint(old(isRegister)), old(form).username, old(form).email, old(form).password)])
              && (invalid.None? && reply.Ok? ==>
                    error == "" && store.token == Some(StoredToken(reply.body)) &&
                    fx == [Send(PostAuth(Endpoint(old(isRegister)), old(form).username, old(form).email, old(form).password)), SuccessToast(if old(isRegister) then RegisteredText else LoggedInText), NavigateTo(AllPath)])
              && (invalid.None? && !reply.Ok? ==>
                    error == SubmitErrorText(reply) && store.token == old(store.token) &&
                    fx == [Send(PostAuth(Endpoint(old(isRegister)), old(form).username, old(form).email, old(form).password)), ErrorToast(SubmitErrorText(reply))])
    {
      error := "";
      isLoading := true;
      var invalid := ValidationError(form, isRegister);
      if invalid.Some? {
        error := invalid.value;
        isLoading := false;
        return [];
      }
      var request := PostAuth(Endpoint(isRegister), form.username, form.email, form.password);
      if reply.Ok? {
        store.token := Some(StoredToken(reply.body));
        isLoading := false;
        fx := [Send(request), SuccessToast(if isRegister then RegisteredText else LoggedInText), NavigateTo(AllPath)];
      } else {
        error := SubmitErrorText(reply);
        isLoading := false;
        fx := [Send(request), ErrorToast(error)];
      }
      RequestsAppend([Send(request)], fx[1..]);
      assert fx == [Send(request)] + fx[1..];
    }
  }
}
