/**
 * The per-category task view (the Work page and the Personal page are the
 * same component with a different category): it checks the session on
 * mount, lists the category's tasks, and adds and deletes tasks through
 * the API.
 */
module TaskViews {
  import opened Wrappers
  import opened Api
  import opened Session

  /** The category the Work page is built with. */
  const WorkCategory := "Работа"
  /** The category the Personal page is built with. */
  const PersonalCategory := "Личный"

  const AddFallback := "Ошибка при добавлении задачи"
  const DeleteFallback := "Ошибка при удалении задачи"
  const RequiredFieldsText := "Название и дата обязательны"
  const AddedText := "Задача добавлена!"
  const DeletedText := "Задача удалена!"

  /** The new-task form. */
  datatype Draft = Draft(title: string, description: string, dueDate: string)

  const EmptyDraft := Draft("", "", "")

  /** The form's input names. */
  datatype Field = Title | Description | DueDate

  function FieldOf(d: Draft, f: Field): string {
    match f
    case Title => d.title
    case Description => d.description
    case DueDate => d.dueDate
  }

  /** The form after typing `value` into the input named `f`. */
  function WithField(d: Draft, f: Field, value: string): (r: Draft)
    ensures FieldOf(r, f) == value
    ensures forall g :: g != f ==> FieldOf(r, g) == FieldOf(d, g)
  {
    match f
    case Title => d.(title := value)
    case Description => d.(description := value)
    case DueDate => d.(dueDate := value)
  }

  /** Creation needs a title and a due date; the description may be empty. */
  predicate Complete(d: Draft) {
    d.title != "" && d.dueDate != ""
  }

  /** The tasks whose id differs from `id`, in their original order. */
  function WithoutId(tasks: seq<Task>, id: string): (r: seq<Task>)
    ensures |r| <= |tasks|
  {
    if tasks == [] then []
    else (if tasks[0].id != id then [tasks[0]] else []) + WithoutId(tasks[1..], id)
  }

  /** A task remains exactly when it was in the list with another id. */
  lemma {:induction false} WithoutIdMembers(tasks: seq<Task>, id: string)
    ensures forall t :: t in WithoutId(tasks, id) <==> t in tasks && t.id != id
  {
    if tasks != [] {
      WithoutIdMembers(tasks[1..], id);
      assert tasks == [tasks[0]] + tasks[1..];
    }
  }

  /** How many tasks carry the id `id`. */
  function CountId(tasks: seq<Task>, id: string): nat {
    if tasks == [] then 0
    else (if tasks[0].id == id then 1 else 0) + CountId(tasks[1..], id)
  }

  /** Deleting drops every task with the id (not only the first) and keeps
      all others. */
  lemma {:induction false} WithoutIdCount(tasks: seq<Task>, id: string)
    ensures |WithoutId(tasks, id)| == |tasks| - CountId(tasks, id)
    ensures CountId(WithoutId(tasks, id), id) == 0
    ensures multiset(WithoutId(tasks, id)) <= multiset(tasks)
  {
    if tasks != [] {
      var h, rest := tasks[0], WithoutId(tasks[1..], id);
      WithoutIdCount(tasks[1..], id);
      assert tasks == [h] + tasks[1..];
      if h.id != id {
        assert WithoutId(tasks, id) == [h] + rest;
        assert ([h] + rest)[1..] == rest;
      } else {
        assert WithoutId(tasks, id) == rest;
      }
    }
  }

  /** One step of the filter on a list with a known head. */
  lemma WithoutIdCons(h: Task, rest: seq<Task>, id: string)
    ensures WithoutId([h] + rest, id) == (if h.id != id then [h] else []) + WithoutId(rest, id)
  {
    assert ([h] + rest)[1..] == rest;
  }

  /** The filter keeps relative order: it distributes over concatenation,
      so a task before another in the list stays before it. */
  lemma {:induction false} WithoutIdAppend(a: seq<Task>, b: seq<Task>, id: string)
    ensures WithoutId(a + b, id) == WithoutId(a, id) + WithoutId(b, id)
  {
    if a != [] {
      WithoutIdAppend(a[1..], b, id);
      assert a == [a[0]] + a[1..];
      assert a + b == [a[0]] + (a[1..] + b);
      var keep := if a[0].id != id then [a[0]] else [];
      var x, y := WithoutId(a[1..], id), WithoutId(b, id);
      WithoutIdCons(a[0], a[1..], id);
      WithoutIdCons(a[0], a[1..] + b, id);
      assert (keep + x) + y == keep + (x + y);
    } else {
      assert a + b == b;
    }
  }

  /** Deleting an id that no task has changes nothing, and deleting twice
      is deleting once. */
  lemma {:induction false} WithoutIdStable(tasks: seq<Task>, id: string)
    ensures CountId(tasks, id) == 0 ==> WithoutId(tasks, id) == tasks
    ensures WithoutId(WithoutId(tasks, id), id) == WithoutId(tasks, id)
  {
    if tasks != [] {
      var h, rest := tasks[0], WithoutId(tasks[1..], id);
      WithoutIdStable(tasks[1..], id);
      assert tasks == [h] + tasks[1..];
      if h.id != id {
        assert WithoutId(tasks, id) == [h] + rest;
        assert ([h] + rest)[1..] == rest;
        assert WithoutId([h] + rest, id) == [h] + WithoutId(rest, id);
      } else {
        assert WithoutId(tasks, id) == rest;
      }
    }
  }

  /** The task list, form and flags of one category page. The stored token
      is the shared `store`. */
  class TaskView {
    const category: string
    const store: TokenStore
    var tasks: seq<Task>
    var draft: Draft
    var loading: bool
    var isAuthenticated: bool

    constructor (category: string, store: TokenStore)
      ensures this.category == category && this.store == store
      ensures tasks == [] && draft == EmptyDraft && !loading && !isAuthenticated
    {
      this.category := category;
      this.store := store;
      tasks := [];
      draft := EmptyDraft;
      loading := false;
      isAuthenticated := false;
    }

    /** The mount effect: the session check, then the list request for the
        category whenever a user was decoded (even from an expired token)
        and it has an email. */
    method Mount(decode: Decoder, now: int, reply: Reply<seq<Task>>) returns (fx: seq<Effect>)
      modifies this, store
      ensures var v := Check(old(store.token), decode, now);
              var sent := v.HasUser() && EmailOf(old(store.token), decode) != "";
              && Requests(fx) == (if sent then [GetTasks(Some(category), old(store.token).value)] else [])
              && tasks == (if sent && reply.Ok? then reply.body else old(tasks))
              && store.token == (if Clears(v) || (sent && reply.Unauthorized()) then None else old(store.token))
              && isAuthenticated == (if sent && reply.Unauthorized() then false else v.Valid? || old(isAuthenticated))
              && loading == (if sent then false else old(loading))
              && (ToLogin in fx <==> !v.Valid? || !sent || reply.Unauthorized())
      ensures var v := Check(old(store.token), decode, now);
              fx == (if v.Valid? then [] else [ErrorToast(RejectText(v)), ToLogin])
                    + (if !v.HasUser() then []
                       else if EmailOf(old(store.token), decode) == "" then [ErrorToast(NotAuthorizedText), ToLogin]
                       else [Send(GetTasks(Some(category), old(store.token).value))] + AfterReply(reply, [], LoadFallback))
      ensures draft == old(draft)
    {
      var token := store.token;
      var v := Check(token, decode, now);
      if v.Valid? {
        isAuthenticated := true;
        fx := [];
      } else {
        if Clears(v) {
          store.token := None;
        }
        fx := [ErrorToast(RejectText(v)), ToLogin];
      }
      if v.HasUser() {
        var more := FetchTasks(token.value, v.claims, reply);
        RequestsAppend(fx, more);
        fx := fx + more;
      }
    }

    /** The list request of the mount effect, for a decoded user: without an
        email it only redirects; otherwise it sets `loading`, replaces the
        list on success, ends the session on a 401, and clears `loading` on
        every exit. */
    method FetchTasks(token: string, user: Claims, reply: Reply<seq<Task>>) returns (fx: seq<Effect>)
      modifies this, store
      ensures var sent := user.email.GetOr("") != "";
              && fx == (if sent then [Send(GetTasks(Some(category), token))] + AfterReply(reply, [], LoadFallback)
                        else [ErrorToast(NotAuthorizedText), ToLogin])
              && tasks == (if sent && reply.Ok? then reply.body else old(tasks))
              && store.token == (if sent && reply.Unauthorized() then None else old(store.token))
              && isAuthenticated == (if sent && reply.Unauthorized() then false else old(isAuthenticated))
              && loading == (if sent then false else old(loading))
      ensures draft == old(draft)
    {
      var email := user.email.GetOr("");
      if email == "" {
        return [ErrorToast(NotAuthorizedText), ToLogin];
      }
      loading := true;
      if reply.Ok? {
        tasks := reply.body;
      } else if reply.Unauthorized() {
        store.token := None;
        isAuthenticated := false;
      }
      fx := [Send(GetTasks(Some(category), token))] + AfterReply(reply, [], LoadFallback);
      RequestsAppend([Send(GetTasks(Some(category), token))], AfterReply(reply, [], LoadFallback));
      loading := false;
    }

    /** Typing into the form changes only the named field. */
    method InputChange(f: Field, value: string)
      modifies this
      ensures draft == WithField(old(draft), f, value)
      ensures tasks == old(tasks) && loading == old(loading) && isAuthenticated == old(isAuthenticated)
    {
      draft := WithField(draft, f, value);
    }

    /** Adding a task: the authentication check comes first, then the
        required fields, then the email taken from the stored token; only
        then is the create request sent, always with the view's category. */
    method AddTask(decode: Decoder, reply: Reply<Task>) returns (fx: seq<Effect>)
      modifies this, store
      ensures !old(isAuthenticated) ==> fx == [ErrorToast(NotAuthorizedText), ToLogin]
      ensures old(isAuthenticated) && !Complete(old(draft)) ==> fx == [ErrorToast(RequiredFieldsText)]
      ensures old(isAuthenticated) && Complete(old(draft)) && Rejects(old(store.token), decode) ==> fx == []
      ensures (old(isAuthenticated) && Complete(old(draft)) && !Rejects(old(store.token), decode) &&
               EmailOf(old(store.token), decode) == "") ==> fx == [ErrorToast(NotAuthorizedText), ToLogin]
      ensures var token := old(store.token);
              var sent := old(isAuthenticated) && Complete(old(draft)) && EmailOf(token, decode) != "";
              && (sent ==> fx == [Send(PostTask(old(draft).title, old(draft).description, old(draft).dueDate,
                                                category, EmailOf(token, decode), token.value))]
                                 + AfterReply(reply, [SuccessToast(AddedText)], AddFallback))
              && (!sent ==> Requests(fx) == [])
              && tasks == (if sent && reply.Ok? then old(tasks) + [reply.body] else old(tasks))
              && draft == (if sent && reply.Ok? then EmptyDraft else old(draft))
              && store.token == (if sent && reply.Unauthorized() then None else token)
              && isAuthenticated == (if sent && reply.Unauthorized() then false else old(isAuthenticated))
              && loading == (if sent then false else old(loading))
    {
      if !isAuthenticated {
        return [ErrorToast(NotAuthorizedText), ToLogin];
      }
      if !Complete(draft) {
        return [ErrorToast(RequiredFieldsText)];
      }
      var token := store.token;
      if Rejects(token, decode) {
        return [];
      }
      var email := EmailOf(token, decode);
      if email == "" {
        return [ErrorToast(NotAuthorizedText), ToLogin];
      }
      loading := true;
      var request := PostTask(draft.title, draft.description, draft.dueDate, category, email, token.value);
      if reply.Ok? {
        tasks := tasks + [reply.body];
        draft := EmptyDraft;
      } else if reply.Unauthorized() {
        store.token := None;
        isAuthenticated := false;
      }
      fx := [Send(request)] + AfterReply(reply, [SuccessToast(AddedText)], AddFallback);
      loading := false;
    }

    /** Deleting a task: on success every task with that id leaves the list;
        on any failure the list is unchanged. */
    method DeleteTask(id: string, decode: Decoder, reply: Reply<()>) returns (fx: seq<Effect>)
      modifies this, store
      ensures !old(isAuthenticated) ==> fx == [ErrorToast(NotAuthorizedText), ToLogin]
      ensures old(isAuthenticated) && Rejects(old(store.token), decode) ==> fx == []
      ensures (old(isAuthenticated) && !Rejects(old(store.token), decode) &&
               EmailOf(old(store.token), decode) == "") ==> fx == [ErrorToast(NotAuthorizedText), ToLogin]
      ensures var token := old(store.token);
              var sent := old(isAuthenticated) && EmailOf(token, decode) != "";
              && (sent ==> fx == [Send(DeleteById(id, token.value))] + AfterReply(reply, [SuccessToast(DeletedText)], DeleteFallback))
              && (!sent ==> Requests(fx) == [])
              && tasks == (if sent && reply.Ok? then WithoutId(old(tasks), id) else old(tasks))
              && store.token == (if sent && reply.Unauthorized() then None else token)
              && isAuthenticated == (if sent && reply.Unauthorized() then false else old(isAuthenticated))
              && loading == (if sent then false else old(loading))
      ensures draft == old(draft)
    {
      if !isAuthenticated {
        return [ErrorToast(NotAuthorizedText), ToLogin];
      }
      var token := store.token;
      if Rejects(token, decode) {
        return [];
      }
      var email := EmailOf(token, decode);
      if email == "" {
        return [ErrorToast(NotAuthorizedText), ToLogin];
      }
      loading := true;
      var request := DeleteById(id, token.value);
      if reply.Ok? {
        tasks := WithoutId(tasks, id);
      } else if reply.Unauthorized() {
        store.token := None;
        isAuthenticated := false;
      }
      fx := [Send(request)] + AfterReply(reply, [SuccessToast(DeletedText)], DeleteFallback);
      loading := false;
    }
  }
}
