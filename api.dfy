/**
 * The boundary with the remote task API and the browser: the task record, the
 * replies a request can get, the effects a handler has (requests it sends,
 * toasts it shows, navigations it makes) and the user-facing texts.
 */
module Api {
  import opened Wrappers

  /** A task as the server returns it. `dueDate` is the parsed date value
      (milliseconds); `category` is absent, empty or a string. */
  datatype Task = Task(id: string, title: string, description: string, dueDate: int, category: Option<string>)

  /** The outcome of one `fetch`: a 2xx response with its decoded body, a
      non-2xx response whose JSON body may carry an `error` field, or a call
      that rejected before any response, with the browser's error message. */
  datatype Reply<+T> =
    | Ok(body: T)
    | HttpError(status: int, error: Option<string>)
    | NetworkFailure(message: string)
  {
    predicate Unauthorized() { HttpError? && status == 401 }
  }

  /** A request sent to the API, with the bearer token it carries. */
  datatype Request =
    | GetTasks(category: Option<string>, bearer: string)
    | PostTask(title: string, description: string, dueDate: string, taskCategory: string, userEmail: string, bearer: string)
    | DeleteById(taskId: string, bearer: string)
    | PostAuth(endpoint: string, username: string, email: string, password: string)

  /** What a handler does besides changing component state. */
  datatype Effect =
    | Send(request: Request)
    | ErrorToast(text: string)
    | SuccessToast(text: string)
    | NavigateTo(path: string)

  const LoginPath := "/login"
  const AllPath := "/all"

  const SignInText := "Пожалуйста, войдите в систему"
  const ExpiredText := "Сессия истекла. Пожалуйста, войдите снова."
  const TokenErrorText := "Ошибка токена. Пожалуйста, войдите снова."
  const NotAuthorizedText := "Пользователь не авторизован"
  const ConnectivityText := "Не удалось подключиться к серверу. Проверьте, работает ли сервер."
  /** The message a browser gives a `fetch` that could not reach the server. */
  const FetchFailed := "Failed to fetch"

  /** The toast a failed task-list request shows when no better text is known. */
  const LoadFallback := "Ошибка при загрузке задач"

  /** The redirect every session failure ends in. */
  const ToLogin := NavigateTo(LoginPath)

  /** The message of the `Error` a handler throws for a failed reply: the
      server's `error` field when it is a non-empty string, else `fallback`;
      for a rejected call, the browser's own message. */
  function ThrownMessage<T>(r: Reply<T>, fallback: string): (m: string)
    requires !r.Ok?
    ensures r.NetworkFailure? ==> m == r.message
    ensures r.HttpError? && r.error.GetOr("") != "" ==> m == r.error.value
    ensures r.HttpError? && r.error.GetOr("") == "" ==> m == fallback
  {
    match r
    case HttpError(_, e) => if e.GetOr("") != "" then e.value else fallback
    case NetworkFailure(msg) => msg
  }

  /** The text a `catch` block shows for a thrown message: the connectivity
      text for "Failed to fetch", the message itself when non-empty, else
      `fallback`. */
  function Notice(message: string, fallback: string): (t: string)
    ensures message == FetchFailed ==> t == ConnectivityText
    ensures message != FetchFailed && message != "" ==> t == message
    ensures message == "" ==> t == fallback
  {
    if message == FetchFailed then ConnectivityText
    else if message != "" then message
    else fallback
  }

  /** The toast text for a failed reply: what is thrown, then mapped by the catch. */
  function FailureText<T>(r: Reply<T>, fallback: string): string
    requires !r.Ok?
  {
    Notice(ThrownMessage(r, fallback), fallback)
  }

  /** A rejected call with the browser's "Failed to fetch" shows the
      connectivity text; a server error carrying a message other than that
      one shows exactly the server's message; a server error without a
      message shows the fallback. So connectivity failures and server
      messages are told apart. */
  lemma FailureTextCases<T>(r: Reply<T>, fallback: string)
    requires !r.Ok?
    requires fallback != "" && fallback != FetchFailed
    ensures r == NetworkFailure(FetchFailed) ==> FailureText(r, fallback) == ConnectivityText
    ensures r.NetworkFailure? && r.message !in {"", FetchFailed} ==> FailureText(r, fallback) == r.message
    ensures r.HttpError? && r.error == Some(FetchFailed) ==> FailureText(r, fallback) == ConnectivityText
    ensures r.HttpError? && r.error.GetOr("") !in {"", FetchFailed} ==> FailureText(r, fallback) == r.error.value
    ensures r.HttpError? && r.error.GetOr("") == "" ==> FailureText(r, fallback) == fallback
    ensures FailureText(r, fallback) != ""
  {
  }

  /** The effects after a request has been answered: `success` on a 2xx
      reply; on a 401 the session-expired toast and the redirect to /login;
      on any other failure one error toast. */
  function AfterReply<T>(r: Reply<T>, success: seq<Effect>, fallback: string): (fx: seq<Effect>)
    ensures r.Ok? ==> fx == success
    ensures r.Unauthorized() ==> fx == [ErrorToast(ExpiredText), ToLogin]
    ensures !r.Ok? && !r.Unauthorized() ==> fx == [ErrorToast(FailureText(r, fallback))]
    ensures Requests(fx) == if r.Ok? then Requests(success) else []
  {
    match r
    case Ok(_) => success
    case HttpError(status, _) =>
      if status == 401 then [ErrorToast(ExpiredText), ToLogin] else [ErrorToast(FailureText(r, fallback))]
    case NetworkFailure(_) => [ErrorToast(FailureText(r, fallback))]
  }

  /** The requests among a handler's effects, in order. */
  function Requests(fx: seq<Effect>): (rs: seq<Request>)
    ensures |rs| <= |fx|
    ensures forall q :: q in rs <==> Send(q) in fx
    ensures (forall i :: 0 <= i < |fx| ==> !fx[i].Send?) ==> rs == []
  {
    if fx == [] then []
    else (if fx[0].Send? then [fx[0].request] else []) + Requests(fx[1..])
  }

  lemma {:induction false} RequestsAppend(a: seq<Effect>, b: seq<Effect>)
    ensures Requests(a + b) == Requests(a) + Requests(b)
  {
    if a == [] {
      assert a + b == b;
    } else {
      assert (a + b)[1..] == a[1..] + b;
      RequestsAppend(a[1..], b);
    }
  }
}
