/**
 * The all-tasks page: one unfiltered list, grouped by category on the
 * client, each group sorted by due date or by title, with a collapse
 * toggle per category.
 */
module AllTasks {
  import opened Wrappers
  import opened Api
  import opened Session
  import StableSort

  const Uncategorized := "Без категории"

  /** The categories the page shows, in display order. */
  const Categories: seq<string> := ["Работа", "Дом", "Личный", "Учеба", "Недельный", Uncategorized]

  const DateOrder := "date"

  /** The group a task falls into: its category, or the catch-all when the
      category is missing or empty (`task.category || 'Без категории'`). */
  function GroupKey(t: Task): (k: string)
    ensures k == Uncategorized <==> t.category.GetOr("") in {"", Uncategorized}
    ensures k != Uncategorized ==> t.category == Some(k)
  {
    if t.category.GetOr("") == "" then Uncategorized else t.category.value
  }

  datatype Group = Group(key: string, members: seq<Task>)

  /** One step of the grouping `reduce`: the task joins the end of its
      group, or opens a new group at the end. */
  function AddToGroup(gs: seq<Group>, t: Task): (r: seq<Group>)
    ensures |gs| <= |r| <= |gs| + 1
  {
    if gs == [] then [Group(GroupKey(t), [t])]
    else if gs[0].key == GroupKey(t) then [gs[0].(members := gs[0].members + [t])] + gs[1..]
    else [gs[0]] + AddToGroup(gs[1..], t)
  }

  /** The groups of a list, in order of first appearance. */
  function GroupByCategory(tasks: seq<Task>): seq<Group> {
    if tasks == [] then [] else AddToGroup(GroupByCategory(tasks[..|tasks| - 1]), tasks[|tasks| - 1])
  }

  /** The tasks of a list that fall into group `k`, in list order. */
  function InGroup(tasks: seq<Task>, k: string): (r: seq<Task>)
    ensures forall t :: t in r <==> t in tasks && GroupKey(t) == k
  {
    if tasks == [] then []
    else InGroup(tasks[..|tasks| - 1], k) + (if GroupKey(tasks[|tasks| - 1]) == k then [tasks[|tasks| - 1]] else [])
  }

  /** The members of the first group with key `k` (a property lookup). */
  function Lookup(gs: seq<Group>, k: string): Option<seq<Task>> {
    if gs == [] then None
    else if gs[0].key == k then Some(gs[0].members)
    else Lookup(gs[1..], k)
  }

  /** All groups' members, one group after another. */
  function Flatten(gs: seq<Group>): seq<Task> {
    if gs == [] then [] else gs[0].members + Flatten(gs[1..])
  }

  predicate DistinctKeys(gs: seq<Group>) {
    forall i, j :: 0 <= i < j < |gs| ==> gs[i].key != gs[j].key
  }

  lemma {:induction false} AddToGroupLookup(gs: seq<Group>, t: Task, k: string)
    ensures Lookup(AddToGroup(gs, t), k) ==
            if k == GroupKey(t) then Some(Lookup(gs, k).GetOr([]) + [t]) else Lookup(gs, k)
  {
    if gs == [] {
      assert [Group(GroupKey(t), [t])][1..] == [];
      assert [] + [t] == [t];
    } else {
      if gs[0].key == GroupKey(t) {
        var g' := gs[0].(members := gs[0].members + [t]);
        assert ([g'] + gs[1..])[1..] == gs[1..];
      } else {
        AddToGroupLookup(gs[1..], t, k);
        assert ([gs[0]] + AddToGroup(gs[1..], t))[1..] == AddToGroup(gs[1..], t);
      }
    }
  }

  lemma {:induction false} AddToGroupKeys(gs: seq<Group>, t: Task)
    requires DistinctKeys(gs)
    ensures DistinctKeys(AddToGroup(gs, t))
    ensures forall i :: 0 <= i < |AddToGroup(gs, t)| ==>
              AddToGroup(gs, t)[i].key == GroupKey(t) || exists j :: 0 <= j < |gs| && gs[j].key == AddToGroup(gs, t)[i].key
  {
    if gs != [] && gs[0].key != GroupKey(t) {
      AddToGroupKeys(gs[1..], t);
      var r := AddToGroup(gs[1..], t);
      assert AddToGroup(gs, t) == [gs[0]] + r;
      forall i | 0 < i < |AddToGroup(gs, t)| ensures gs[0].key != AddToGroup(gs, t)[i].key {
        assert AddToGroup(gs, t)[i] == r[i - 1];
        if r[i - 1].key != GroupKey(t) {
          var j :| 0 <= j < |gs[1..]| && gs[1..][j].key == r[i - 1].key;
          assert gs[j + 1].key == r[i - 1].key;
        }
      }
      forall i | 0 < i < |AddToGroup(gs, t)|
        ensures AddToGroup(gs, t)[i].key == GroupKey(t) || exists j :: 0 <= j < |gs| && gs[j].key == AddToGroup(gs, t)[i].key
      {
        assert AddToGroup(gs, t)[i] == r[i - 1];
        if r[i - 1].key != GroupKey(t) {
          var j :| 0 <= j < |gs[1..]| && gs[1..][j].key == r[i - 1].key;
          assert gs[j + 1].key == r[i - 1].key;
        }
      }
    }
  }

  lemma {:induction false} AddToGroupFlatten(gs: seq<Group>, t: Task)
    ensures multiset(Flatten(AddToGroup(gs, t))) == multiset(Flatten(gs)) + multiset{t}
  {
    if gs == [] {
      assert Flatten([Group(GroupKey(t), [t])]) == [t];
    } else if gs[0].key == GroupKey(t) {
      var g' := gs[0].(members := gs[0].members + [t]);
      assert ([g'] + gs[1..])[1..] == gs[1..];
    } else {
      AddToGroupFlatten(gs[1..], t);
      assert ([gs[0]] + AddToGroup(gs[1..], t))[1..] == AddToGroup(gs[1..], t);
    }
  }

  /** The group of key `k` exists exactly when some task has that key, and
      then holds exactly those tasks, in fetch order. */
  lemma {:induction false} GroupByCategoryLookup(tasks: seq<Task>, k: string)
    ensures Lookup(GroupByCategory(tasks), k) == if InGroup(tasks, k) == [] then None else Some(InGroup(tasks, k))
  {
    if tasks != [] {
      var init, t := tasks[..|tasks| - 1], tasks[|tasks| - 1];
      GroupByCategoryLookup(init, k);
      AddToGroupLookup(GroupByCategory(init), t, k);
      assert InGroup(tasks, k) == InGroup(init, k) + (if GroupKey(t) == k then [t] else []);
      assert [] + [t] == [t];
      if GroupKey(t) == k {
        assert InGroup(tasks, k) != [];
        assert Lookup(GroupByCategory(init), k).GetOr([]) == InGroup(init, k);
      } else {
        assert InGroup(tasks, k) == InGroup(init, k);
      }
    }
  }

  /** No two groups share a key. */
  lemma {:induction false} GroupByCategoryDistinct(tasks: seq<Task>)
    ensures DistinctKeys(GroupByCategory(tasks))
  {
    if tasks != [] {
      GroupByCategoryDistinct(tasks[..|tasks| - 1]);
      AddToGroupKeys(GroupByCategory(tasks[..|tasks| - 1]), tasks[|tasks| - 1]);
    }
  }

  /** The groups together hold every task exactly once. */
  lemma {:induction false} GroupByCategoryCovers(tasks: seq<Task>)
    ensures multiset(Flatten(GroupByCategory(tasks))) == multiset(tasks)
  {
    if tasks != [] {
      var init, t := tasks[..|tasks| - 1], tasks[|tasks| - 1];
      GroupByCategoryCovers(init);
      AddToGroupFlatten(GroupByCategory(init), t);
      MultisetSnoc(init, t);
      assert tasks == init + [t];
    }
  }

  /** The groups' sizes add up to the number of tasks. */
  lemma GroupByCategorySize(tasks: seq<Task>)
    ensures |Flatten(GroupByCategory(tasks))| == |tasks|
  {
    var flat := Flatten(GroupByCategory(tasks));
    GroupByCategoryCovers(tasks);
    assert |multiset(flat)| == |flat|;
  }

  lemma MultisetSnoc(init: seq<Task>, t: Task)
    ensures multiset(init + [t]) == multiset(init) + multiset{t}
  {
  }

  /** Only a missing or empty category (or the catch-all's own name) lands
      in the catch-all group; any other value becomes a group of its own. */
  lemma GroupKeyCases(t: Task, tasks: seq<Task>)
    requires t in tasks
    ensures t.category.GetOr("") == "" ==> t in InGroup(tasks, Uncategorized)
    ensures t.category.GetOr("") != "" ==> t in InGroup(tasks, t.category.value)
  {
  }

  /** The sort key: the due date when `sortBy` is "date", the title's
      collation key for any other value. */
  function SortKey(sortBy: string, collate: string -> real): Task -> real {
    if sortBy == DateOrder then (t: Task) => t.dueDate as real else (t: Task) => collate(t.title)
  }

  /** A rendered category section. */
  datatype Section = Section(category: string, expanded: bool, tasks: seq<Task>)

  /** A missing toggle entry reads as collapsed. */
  predicate IsExpanded(expanded: map<string, bool>, c: string) {
    c in expanded && expanded[c]
  }

  function SectionsFor(cats: seq<string>, gs: seq<Group>, key: Task -> real, expanded: map<string, bool>): seq<Section> {
    if cats == [] then []
    else
      (match Lookup(gs, cats[0])
       case None => []
       case Some(ms) => [Section(cats[0], IsExpanded(expanded, cats[0]), StableSort.Sort(ms, key))])
      + SectionsFor(cats[1..], gs, key, expanded)
  }

  /** The sections shown for the fetched tasks: one per fixed category
      that has tasks, in the fixed order. */
  function Sections(tasks: seq<Task>, sortBy: string, collate: string -> real, expanded: map<string, bool>): seq<Section> {
    SectionsFor(Categories, GroupByCategory(tasks), SortKey(sortBy, collate), expanded)
  }

  /** The fixed categories that have at least one task, in display order. */
  function Occupied(cats: seq<string>, tasks: seq<Task>): (r: seq<string>)
    ensures |r| <= |cats|
    ensures forall c :: c in r ==> c in cats
  {
    if cats == [] then []
    else (if InGroup(tasks, cats[0]) != [] then [cats[0]] else []) + Occupied(cats[1..], tasks)
  }

  lemma {:induction false} SectionsForShape(cats: seq<string>, tasks: seq<Task>, key: Task -> real, expanded: map<string, bool>)
    ensures var r := SectionsFor(cats, GroupByCategory(tasks), key, expanded);
            var occ := Occupied(cats, tasks);
            |r| == |occ| &&
            forall i :: 0 <= i < |r| ==>
              r[i] == Section(occ[i], IsExpanded(expanded, occ[i]), StableSort.Sort(InGroup(tasks, occ[i]), key))
  {
    if cats != [] {
      var c := cats[0];
      var gs := GroupByCategory(tasks);
      var head := if InGroup(tasks, c) != [] then [c] else [];
      var r', occ' := SectionsFor(cats[1..], gs, key, expanded), Occupied(cats[1..], tasks);
      SectionsForShape(cats[1..], tasks, key, expanded);
      GroupByCategoryLookup(tasks, c);
      var s := match Lookup(gs, c)
               case None => []
               case Some(ms) => [Section(c, IsExpanded(expanded, c), StableSort.Sort(ms, key))];
      assert SectionsFor(cats, gs, key, expanded) == s + r';
      assert Occupied(cats, tasks) == head + occ';
      assert |s| == |head|;
      assert forall i :: 0 <= i < |head| ==>
        s[i] == Section(head[i], IsExpanded(expanded, head[i]), StableSort.Sort(InGroup(tasks, head[i]), key));
    }
  }

  /** What the page shows: exactly one section per fixed category that has
      tasks, in the fixed order, with its expanded flag, each holding that
      category's tasks sorted by the chosen key, stably (ties keep fetch
      order). */
  lemma SectionsCorrect(tasks: seq<Task>, sortBy: string, collate: string -> real, expanded: map<string, bool>)
    ensures var r := Sections(tasks, sortBy, collate, expanded);
            var occ := Occupied(Categories, tasks);
            var key := SortKey(sortBy, collate);
            |r| == |occ| &&
            forall i :: 0 <= i < |r| ==>
              && r[i].category == occ[i]
              && r[i].expanded == IsExpanded(expanded, occ[i])
              && r[i].tasks != []
              && StableSort.SortedBy(r[i].tasks, key)
              && multiset(r[i].tasks) == multiset(InGroup(tasks, occ[i]))
              && (forall k :: StableSort.WithKey(r[i].tasks, key, k) == StableSort.WithKey(InGroup(tasks, occ[i]), key, k))
  {
    var key := SortKey(sortBy, collate);
    var r := Sections(tasks, sortBy, collate, expanded);
    var occ := Occupied(Categories, tasks);
    SectionsForShape(Categories, tasks, key, expanded);
    forall i | 0 <= i < |r|
      ensures && r[i].tasks != []
              && StableSort.SortedBy(r[i].tasks, key)
              && multiset(r[i].tasks) == multiset(InGroup(tasks, occ[i]))
              && (forall k :: StableSort.WithKey(r[i].tasks, key, k) == StableSort.WithKey(InGroup(tasks, occ[i]), key, k))
    {
      StableSort.SortCorrect(InGroup(tasks, occ[i]), key);
      OccupiedNonEmpty(Categories, tasks, i);
    }
  }

  /** A fetched task is on the page exactly when its group is one of the
      six fixed categories; tasks with any other category value are never
      shown. */
  lemma SectionsShowExactly(tasks: seq<Task>, sortBy: string, collate: string -> real, expanded: map<string, bool>, t: Task)
    ensures (exists s :: s in Sections(tasks, sortBy, collate, expanded) && t in s.tasks) <==>
            t in tasks && GroupKey(t) in Categories
  {
    var key := SortKey(sortBy, collate);
    var r := Sections(tasks, sortBy, collate, expanded);
    var occ := Occupied(Categories, tasks);
    SectionsForShape(Categories, tasks, key, expanded);
    if t in tasks && GroupKey(t) in Categories {
      var i := OccupiedHas(Categories, tasks, GroupKey(t));
      StableSort.SortCorrect(InGroup(tasks, occ[i]), key);
      assert t in multiset(r[i].tasks);
      assert r[i] in r;
    }
    if s :| s in r && t in s.tasks {
      var i :| 0 <= i < |r| && r[i] == s;
      StableSort.SortCorrect(InGroup(tasks, occ[i]), key);
      assert t in multiset(InGroup(tasks, occ[i]));
    }
  }

  lemma {:induction false} OccupiedNonEmpty(cats: seq<string>, tasks: seq<Task>, i: nat)
    requires i < |Occupied(cats, tasks)|
    ensures InGroup(tasks, Occupied(cats, tasks)[i]) != []
  {
    if cats != [] {
      if InGroup(tasks, cats[0]) != [] {
        if i > 0 { OccupiedNonEmpty(cats[1..], tasks, i - 1); }
      } else {
        OccupiedNonEmpty(cats[1..], tasks, i);
      }
    }
  }

  lemma {:induction false} OccupiedHas(cats: seq<string>, tasks: seq<Task>, c: string) returns (i: nat)
    requires c in cats && InGroup(tasks, c) != []
    ensures i < |Occupied(cats, tasks)| && Occupied(cats, tasks)[i] == c
  {
    var head := if InGroup(tasks, cats[0]) != [] then [cats[0]] else [];
    if cats[0] == c {
      i := 0;
    } else {
      var j := OccupiedHas(cats[1..], tasks, c);
      i := |head| + j;
    }
  }

  /** Flipping one category's expanded flag. A key absent from the map reads
      as `undefined`, so the flip stores `true`. */
  function Toggled(expanded: map<string, bool>, c: string): (r: map<string, bool>)
    ensures r.Keys == expanded.Keys + {c}
    ensures r[c] == !IsExpanded(expanded, c)
    ensures forall k :: k in expanded && k != c ==> r[k] == expanded[k]
  {
    expanded[c := !IsExpanded(expanded, c)]
  }

  /** Toggling a shown category twice restores the map. */
  lemma ToggleTwice(expanded: map<string, bool>, c: string)
    requires c in expanded
    ensures Toggled(Toggled(expanded, c), c) == expanded
  {
  }

  const InitialExpanded: map<string, bool> :=
    map["Работа" := true, "Дом" := true, "Личный" := true, "Учеба" := true, "Недельный" := true, Uncategorized := true]

  /** What the component renders. */
  datatype Screen = Blank | Spinner | NoTasks | Grouped(sections: seq<Section>)

  class AllView {
    const store: TokenStore
    var tasks: seq<Task>
    var loading: bool
    var isAuthenticated: bool
    var sortBy: string
    var expanded: map<string, bool>

    /** Initially sorted by date with every category expanded. */
    constructor (store: TokenStore)
      ensures this.store == store
      ensures tasks == [] && !loading && !isAuthenticated
      ensures sortBy == DateOrder
      ensures expanded.Keys == set c | c in Categories
      ensures forall c :: c in Categories ==> IsExpanded(expanded, c)
    {
      this.store := store;
      tasks := [];
      loading := false;
      isAuthenticated := false;
      sortBy := DateOrder;
      expanded := InitialExpanded;
    }

    /** The mount effect: the same session check as the category views,
        then the unfiltered list request. */
    method Mount(decode: Decoder, now: int, reply: Reply<seq<Task>>) returns (fx: seq<Effect>)
      modifies this, store
      ensures var v := Check(old(store.token), decode, now);
              var sent := v.HasUser() && EmailOf(old(store.token), decode) != "";
              && Requests(fx) == (if sent then [GetTasks(None, old(store.token).value)] else [])
              && tasks == (if sent && reply.Ok? then reply.body else old(tasks))
              && store.token == (if Clears(v) || (sent && reply.Unauthorized()) then None else old(store.token))
              && isAuthenticated == (if sent && reply.Unauthorized() then false else v.Valid? || old(isAuthenticated))
              && loading == (if sent then false else old(loading))
              && (ToLogin in fx <==> !v.Valid? || !sent || reply.Unauthorized())
      ensures var v := Check(old(store.token), decode, now);
              fx == (if v.Valid? then [] else [ErrorToast(RejectText(v)), ToLogin])
                    + (if !v.HasUser() then []
                       else if EmailOf(old(store.token), decode) == "" then [ErrorToast(NotAuthorizedText), ToLogin]
                       else [Send(GetTasks(None, old(store.token).value))] + AfterReply(reply, [], LoadFallback))
      ensures sortBy == old(sortBy) && expanded == old(expanded)
    {
      var token := store.token;
      var v := Check(token, decode, now);
      if v.Valid? {
        isAuthenticated := true;
        fx := [];
      } else {
        if Clears(v) {
          store.token := None;
        }
        fx := [ErrorToast(RejectText(v)), ToLogin];
      }
      if v.HasUser() {
        var more := FetchTasks(token.value, v.claims, reply);
        RequestsAppend(fx, more);
        fx := fx + more;
      }
    }

    /** The list request of the mount effect, for a decoded user: without an
        email it only redirects; otherwise it sets `loading`, replaces the
        list on success, ends the session on a 401, and clears `loading` on
        every exit. */
    method FetchTasks(token: string, user: Claims, reply: Reply<seq<Task>>) returns (fx: seq<Effect>)
      modifies this, store
      ensures var sent := user.email.GetOr("") != "";
              && fx == (if sent then [Send(GetTasks(None, token))] + AfterReply(reply, [], LoadFallback)
                        else [ErrorToast(NotAuthorizedText), ToLogin])
              && tasks == (if sent && reply.Ok? then reply.body else old(tasks))
              && store.token == (if sent && reply.Unauthorized() then None else old(store.token))
              && isAuthenticated == (if sent && reply.Unauthorized() then false else old(isAuthenticated))
              && loading == (if sent then false else old(loading))
      ensures sortBy == old(sortBy) && expanded == old(expanded)
    {
      var email := user.email.GetOr("");
      if email == "" {
        return [ErrorToast(NotAuthorizedText), ToLogin];
      }
      loading := true;
      if reply.Ok? {
        tasks := reply.body;
      } else if reply.Unauthorized() {
        store.token := None;
        isAuthenticated := false;
      }
      fx := [Send(GetTasks(None, token))] + AfterReply(reply, [], LoadFallback);
      RequestsAppend([Send(GetTasks(None, token))], AfterReply(reply, [], LoadFallback));
      loading := false;
    }

    method ChangeSort(value: string)
      modifies this
      ensures sortBy == value
      ensures tasks == old(tasks) && expanded == old(expanded) && loading == old(loading) && isAuthenticated == old(isAuthenticated)
    {
      sortBy := value;
    }

    method ToggleCategory(c: string)
      modifies this
      ensures expanded == Toggled(old(expanded), c)
      ensures tasks == old(tasks) && sortBy == old(sortBy) && loading == old(loading) && isAuthenticated == old(isAuthenticated)
    {
      expanded := Toggled(expanded, c);
    }

    /** The render: nothing until authenticated, the spinner while loading,
        the empty state for no tasks, else the grouped sections. */
    function Render(collate: string -> real): (s: Screen)
      reads this
      ensures s == Blank <==> !isAuthenticated
      ensures s.Grouped? <==> isAuthenticated && !loading && tasks != []
      ensures s == Spinner <==> isAuthenticated && loading
      ensures s == NoTasks <==> isAuthenticated && !loading && tasks == []
      ensures s.Grouped? ==> s.sections == Sections(tasks, sortBy, collate, expanded)
      ensures s.Grouped? ==> |s.sections| <= |Categories|
    {
      if !isAuthenticated then Blank
      else if loading then Spinner
      else if tasks == [] then NoTasks
      else
        SectionsForShape(Categories, tasks, SortKey(sortBy, collate), expanded);
        Grouped(Sections(tasks, sortBy, collate, expanded))
    }
  }
}
