/**
 * The task store: the list of all tasks, the list currently shown after the
 * search filter, the search term, per-column page entries, a loading flag and
 * an error message, with the reducers that change them.
 *
 * `Reduce` is the store's meaning, one action at a time; the class `TaskStore`
 * holds the same fields and updates them in place the way the reducers do,
 * and each of its methods is proved to agree with `Reduce`.
 */
module TaskSlice {
  import opened Wrappers
  import opened Constants
  import opened JsArray
  import opened JsString

  /** A task as the server returns it. */
  datatype Task = Task(id: int, title: string, description: string, column: Column)

  /** One column's entry in the store's `pagination` object. */
  datatype PageEntry = PageEntry(page: int, totalPages: int)

  datatype State = State(
    tasks: seq<Task>,
    filteredTasks: seq<Task>,
    searchTerm: string,
    pagination: map<string, PageEntry>,
    loading: bool,
    error: Option<string>)

  /** The actions the reducers handle, with their payloads. */
  datatype Action =
    | SetTasks(payload: seq<Task>)
    | AddTask(task: Task)
    | UpdateTask(task: Task)
    | DeleteTask(id: int)
    | MoveTask(taskId: int, newColumn: Column)
    | SetSearchTerm(term: string)
    | SetPagination(column: string, page: int, totalPages: int)
    | SetLoading(isLoading: bool)
    | SetError(message: Option<string>)

  /** The search: the term, lower-cased, occurs in the lower-cased title or description. */
  function Matches(t: Task, term: string): (b: bool)
    ensures term == "" ==> b
    ensures b ==> |term| <= |t.title| || |term| <= |t.description|
  {
    assert ToLower("") == "";
    Includes(ToLower(t.title), ToLower(term)) || Includes(ToLower(t.description), ToLower(term))
  }

  function MatchesTerm(term: string): Task -> bool {
    (t: Task) => Matches(t, term)
  }

  function HasId(id: int): Task -> bool {
    (t: Task) => t.id == id
  }

  function OtherId(id: int): Task -> bool {
    (t: Task) => t.id != id
  }

  /** `tasks.filter(...)` with the search lambda of the reducers. */
  function FilterByTerm(ts: seq<Task>, term: string): (r: seq<Task>)
    ensures forall x :: x in r <==> x in ts && Matches(x, term)
    ensures IsSubsequence(r, ts)
  {
    FilterKeeps(ts, MatchesTerm(term));
    Filter(ts, MatchesTerm(term))
  }

  /** `i` is the index of the first task with identifier `id`. */
  predicate IsFirstWithId(ts: seq<Task>, id: int, i: int) {
    0 <= i < |ts| && ts[i].id == id && forall j :: 0 <= j < i ==> ts[j].id != id
  }

  predicate NoTaskWithId(ts: seq<Task>, id: int) {
    forall j :: 0 <= j < |ts| ==> ts[j].id != id
  }

  /** No two tasks share an identifier (the server assigns them). */
  predicate UniqueIds(ts: seq<Task>) {
    forall i, j :: 0 <= i < |ts| && 0 <= j < |ts| && ts[i].id == ts[j].id ==> i == j
  }

  /** `findIndex(task => task.id === id)`; `find` is the same search followed by indexing. */
  function FirstWithId(ts: seq<Task>, id: int): (r: Option<nat>)
    ensures r.Some? ==> IsFirstWithId(ts, id, r.value)
    ensures r.None? <==> NoTaskWithId(ts, id)
  {
    FindIndex(ts, HasId(id))
  }

  /** `updateTask` on one list: the first task with `t`'s identifier is replaced by `t`. */
  function ReplaceFirst(ts: seq<Task>, t: Task): (r: seq<Task>)
    ensures |r| == |ts|
    ensures NoTaskWithId(ts, t.id) ==> r == ts
    ensures forall i :: IsFirstWithId(ts, t.id, i) ==>
              r[i] == t && forall j :: 0 <= j < |ts| && j != i ==> r[j] == ts[j]
  {
    match FirstWithId(ts, t.id)
    case None => ts
    case Some(i) => ts[i := t]
  }

  /** `moveTask` on one list: the first task with identifier `id` gets column `c`. */
  function MoveFirst(ts: seq<Task>, id: int, c: Column): (r: seq<Task>)
    ensures |r| == |ts|
    ensures forall j :: 0 <= j < |ts| ==>
              r[j].id == ts[j].id && r[j].title == ts[j].title && r[j].description == ts[j].description
    ensures forall j :: 0 <= j < |ts| && !IsFirstWithId(ts, id, j) ==> r[j] == ts[j]
    ensures forall j :: IsFirstWithId(ts, id, j) ==> r[j].column == c
    ensures NoTaskWithId(ts, id) ==> r == ts
  {
    match FirstWithId(ts, id)
    case None => ts
    case Some(i) => ts[i := ts[i].(column := c)]
  }

  /**
   * `deleteTask` on one list: every task with identifier `id` is dropped, and
   * every other task stays, as often as it was there and in the same order.
   */
  function RemoveId(ts: seq<Task>, id: int): (r: seq<Task>)
    ensures NoTaskWithId(r, id)
    ensures forall x :: x in r <==> x in ts && x.id != id
    ensures forall x :: multiset(r)[x] == if x.id != id then multiset(ts)[x] else 0
    ensures IsSubsequence(r, ts)
  {
    FilterKeeps(ts, OtherId(id));
    Filter(ts, OtherId(id))
  }

  function InitialPagination(): map<string, PageEntry> {
    map[ColumnId(Backlog) := PageEntry(1, 1),
        ColumnId(InProgress) := PageEntry(1, 1),
        ColumnId(Review) := PageEntry(1, 1),
        ColumnId(Done) := PageEntry(1, 1)]
  }

  function InitialState(): (s: State)
    ensures s.tasks == [] && Synced(s) && s.searchTerm == ""
    ensures !s.loading && s.error.None?
  {
    State([], [], "", InitialPagination(), false, None)
  }

  /** What one dispatched action does to the store. */
  function Reduce(s: State, a: Action): (r: State)
    ensures r.searchTerm == if a.SetSearchTerm? then a.term else s.searchTerm
    ensures r.loading == if a.SetLoading? then a.isLoading else s.loading
    ensures r.error == if a.SetError? then a.message else s.error
    ensures !a.SetPagination? ==> r.pagination == s.pagination
    ensures a.SetPagination? || a.SetLoading? || a.SetError? ==>
              r.tasks == s.tasks && r.filteredTasks == s.filteredTasks
    ensures a.AddTask? || a.SetSearchTerm? ==> Synced(r)
    ensures |r.tasks| == |s.tasks| + (if a.AddTask? then 1 else 0) || a.SetTasks? || a.DeleteTask?
  {
    match a
    case SetTasks(p) =>
      s.(tasks := p, filteredTasks := p)
    case AddTask(t) =>
      var ts := s.tasks + [t];
      s.(tasks := ts, filteredTasks := FilterByTerm(ts, s.searchTerm))
    case UpdateTask(t) =>
      if FirstWithId(s.tasks, t.id).None? then s
      else
        var ts := ReplaceFirst(s.tasks, t);
        s.(tasks := ts, filteredTasks := FilterByTerm(ts, s.searchTerm))
    case DeleteTask(id) =>
      s.(tasks := RemoveId(s.tasks, id), filteredTasks := RemoveId(s.filteredTasks, id))
    case MoveTask(id, c) =>
      s.(tasks := MoveFirst(s.tasks, id, c), filteredTasks := MoveFirst(s.filteredTasks, id, c))
    case SetSearchTerm(term) =>
      s.(searchTerm := term, filteredTasks := FilterByTerm(s.tasks, term))
    case SetPagination(column, page, totalPages) =>
      s.(pagination := s.pagination[column := PageEntry(page, totalPages)])
    case SetLoading(b) =>
      s.(loading := b)
    case SetError(e) =>
      s.(error := e)
  }

  /** The shown list is exactly the tasks matching the current term. */
  predicate Synced(s: State) {
    s.filteredTasks == FilterByTerm(s.tasks, s.searchTerm)
  }

  // ----- Properties of the reducers -----

  /** The initial store is empty, searches for nothing and has page 1 of 1 for each of the four columns. */
  lemma InitialStateShape()
    ensures InitialState().tasks == [] && InitialState().filteredTasks == [] && InitialState().searchTerm == ""
    ensures InitialState().pagination.Keys == set c: Column | c in AllColumns :: ColumnId(c)
    ensures forall c: Column :: InitialState().pagination[ColumnId(c)] == PageEntry(1, 1)
    ensures Synced(InitialState())
  {
    ColumnsEnumerated();
  }

  /** When the store is in sync, what it shows is an in-order selection of its tasks: those matching the term, every copy of each. */
  lemma SyncedShowsMatches(s: State, x: Task)
    requires Synced(s)
    ensures IsSubsequence(s.filteredTasks, s.tasks)
    ensures x in s.filteredTasks <==> x in s.tasks && Matches(x, s.searchTerm)
    ensures multiset(s.filteredTasks)[x] == if Matches(x, s.searchTerm) then multiset(s.tasks)[x] else 0
  {
    FilterIsSubsequence(s.tasks, MatchesTerm(s.searchTerm));
    FilterMembership(s.tasks, MatchesTerm(s.searchTerm), x);
    FilterCount(s.tasks, MatchesTerm(s.searchTerm), x);
  }

  /** `setTasks` puts its payload in both lists and keeps the term, without filtering by it. */
  lemma SetTasksIgnoresTerm(s: State, p: seq<Task>)
    ensures Reduce(s, SetTasks(p)).tasks == p
    ensures Reduce(s, SetTasks(p)).filteredTasks == p
    ensures Reduce(s, SetTasks(p)).searchTerm == s.searchTerm
  {
  }

  /** Because it does not filter, `setTasks` can leave a task that does not match the term on show. */
  lemma SetTasksCanShowNonMatching()
    ensures var s := Reduce(InitialState().(searchTerm := "bug"), SetTasks([Task(2, "a", "b", Done)]));
            !Synced(s) && s.filteredTasks == s.tasks
  {
    var t := Task(2, "a", "b", Done);
    assert !Matches(t, "bug");
    assert FilterByTerm([t], "bug") == [];
  }

  /** `addTask` appends at the end, keeps the old tasks in place and leaves the store in sync. */
  lemma AddTaskAppends(s: State, t: Task)
    ensures |Reduce(s, AddTask(t)).tasks| == |s.tasks| + 1
    ensures Reduce(s, AddTask(t)).tasks[..|s.tasks|] == s.tasks
    ensures Reduce(s, AddTask(t)).tasks[|s.tasks|] == t
    ensures Synced(Reduce(s, AddTask(t)))
  {
    assert Reduce(s, AddTask(t)).tasks[..|s.tasks|] == s.tasks;
  }

  /** From a synced store, re-filtering after `addTask` shows the old list plus the new task when it matches. */
  lemma AddTaskShowsNewIfMatching(s: State, t: Task)
    requires Synced(s)
    ensures Reduce(s, AddTask(t)).filteredTasks
            == s.filteredTasks + (if Matches(t, s.searchTerm) then [t] else [])
  {
    FilterAppend(s.tasks, t, MatchesTerm(s.searchTerm));
  }

  /** `setSearchTerm` stores the term and shows exactly the tasks matching it. */
  lemma SetSearchTermSyncs(s: State, term: string)
    ensures Reduce(s, SetSearchTerm(term)).searchTerm == term
    ensures Reduce(s, SetSearchTerm(term)).tasks == s.tasks
    ensures Synced(Reduce(s, SetSearchTerm(term)))
  {
  }

  /** The empty term matches every task, so clearing the search shows all tasks again. */
  lemma ClearSearchShowsAll(s: State)
    ensures Reduce(s, SetSearchTerm("")).filteredTasks == s.tasks
  {
    forall i | 0 <= i < |s.tasks| ensures MatchesTerm("")(s.tasks[i]) {
      assert ToLower("") == "";
    }
    FilterAll(s.tasks, MatchesTerm(""));
  }

  /** `updateTask` with an identifier no task has changes nothing at all. */
  lemma UpdateUnknownIsNoOp(s: State, t: Task)
    requires NoTaskWithId(s.tasks, t.id)
    ensures Reduce(s, UpdateTask(t)) == s
  {
  }

  /**
   * `updateTask` with a known identifier replaces the first task carrying it,
   * keeps the length and every other position, and leaves the store in sync.
   */
  lemma UpdateKnownReplacesFirst(s: State, t: Task, i: int)
    requires IsFirstWithId(s.tasks, t.id, i)
    ensures var s' := Reduce(s, UpdateTask(t));
            |s'.tasks| == |s.tasks| && s'.tasks[i] == t
            && (forall j :: 0 <= j < |s.tasks| && j != i ==> s'.tasks[j] == s.tasks[j])
            && Synced(s') && s'.searchTerm == s.searchTerm
  {
  }

  /**
   * `deleteTask` drops every task with the identifier from both lists, keeps
   * every other task as often as it was there, and what remains is in the old order.
   */
  lemma DeleteRemovesEveryCopy(s: State, id: int, x: Task)
    ensures var s' := Reduce(s, DeleteTask(id));
            NoTaskWithId(s'.tasks, id) && NoTaskWithId(s'.filteredTasks, id)
            && (x in s'.tasks <==> x in s.tasks && x.id != id)
            && (x in s'.filteredTasks <==> x in s.filteredTasks && x.id != id)
            && multiset(s'.tasks)[x] == (if x.id != id then multiset(s.tasks)[x] else 0)
            && multiset(s'.filteredTasks)[x] == (if x.id != id then multiset(s.filteredTasks)[x] else 0)
            && IsSubsequence(s'.tasks, s.tasks) && IsSubsequence(s'.filteredTasks, s.filteredTasks)
            && s' == s.(tasks := s'.tasks, filteredTasks := s'.filteredTasks)
  {
  }

  /** Filtering the two lists separately gives the same as re-filtering: `deleteTask` keeps a synced store synced. */
  lemma DeleteKeepsSync(s: State, id: int)
    requires Synced(s)
    ensures Synced(Reduce(s, DeleteTask(id)))
  {
    FilterCommute(s.tasks, MatchesTerm(s.searchTerm), OtherId(id));
  }

  /** `deleteTask` keeps the shown list a subsequence of the task list. */
  lemma DeleteKeepsSubsequence(s: State, id: int)
    requires IsSubsequence(s.filteredTasks, s.tasks)
    ensures var s' := Reduce(s, DeleteTask(id)); IsSubsequence(s'.filteredTasks, s'.tasks)
  {
    FilterKeepsSubsequence(s.filteredTasks, s.tasks, OtherId(id));
  }

  /**
   * `moveTask` changes only the column of the first task with the identifier,
   * in each list; lengths, order, identifiers, titles and descriptions stay.
   */
  lemma MoveChangesOnlyColumn(s: State, id: int, c: Column)
    ensures var s' := Reduce(s, MoveTask(id, c));
            |s'.tasks| == |s.tasks| && |s'.filteredTasks| == |s.filteredTasks|
            && (forall j :: 0 <= j < |s.tasks| ==> s'.tasks[j] == s.tasks[j].(column := s'.tasks[j].column))
            && (forall j :: 0 <= j < |s.tasks| && !IsFirstWithId(s.tasks, id, j) ==> s'.tasks[j] == s.tasks[j])
            && (forall j :: IsFirstWithId(s.tasks, id, j) ==> s'.tasks[j].column == c)
            && (forall j :: 0 <= j < |s.filteredTasks| ==>
                  s'.filteredTasks[j] == s.filteredTasks[j].(column := s'.filteredTasks[j].column))
            && (forall j :: 0 <= j < |s.filteredTasks| && !IsFirstWithId(s.filteredTasks, id, j) ==>
                  s'.filteredTasks[j] == s.filteredTasks[j])
            && (forall j :: IsFirstWithId(s.filteredTasks, id, j) ==> s'.filteredTasks[j].column == c)
            && s' == s.(tasks := s'.tasks, filteredTasks := s'.filteredTasks)
  {
  }

  /** `moveTask` with an identifier in neither list changes nothing. */
  lemma MoveUnknownIsNoOp(s: State, id: int, c: Column)
    requires NoTaskWithId(s.tasks, id) && NoTaskWithId(s.filteredTasks, id)
    ensures Reduce(s, MoveTask(id, c)) == s
  {
  }

  /** `MoveFirst` when the first task has the identifier: only that one moves. */
  lemma MoveFirstHead(ts: seq<Task>, id: int, c: Column)
    requires |ts| > 0 && ts[0].id == id
    ensures MoveFirst(ts, id, c) == [ts[0].(column := c)] + ts[1..]
  {
    assert FirstWithId(ts, id) == Some(0);
    assert ts[0 := ts[0].(column := c)] == [ts[0].(column := c)] + ts[1..];
  }

  /** `MoveFirst` when the first task has another identifier: the search goes on in the rest. */
  lemma MoveFirstSkip(ts: seq<Task>, id: int, c: Column)
    requires |ts| > 0 && ts[0].id != id
    ensures MoveFirst(ts, id, c) == [ts[0]] + MoveFirst(ts[1..], id, c)
  {
    var rest := ts[1..];
    var f := FindIndex(rest, HasId(id));
    assert !HasId(id)(ts[0]);
    assert FirstWithId(ts, id) == if f.None? then None else Some(f.value + 1);
    if f.Some? {
      var j := f.value;
      var moved := rest[j].(column := c);
      assert ts[j + 1] == rest[j];
      assert ts[j + 1 := moved] == [ts[0]] + rest[j := moved];
    } else {
      assert ts == [ts[0]] + rest;
    }
  }

  /** `MoveFirst` unrolled by one element. */
  lemma MoveFirstCons(ts: seq<Task>, id: int, c: Column)
    requires |ts| > 0
    ensures MoveFirst(ts, id, c)
            == if ts[0].id == id then [ts[0].(column := c)] + ts[1..]
               else [ts[0]] + MoveFirst(ts[1..], id, c)
  {
    if ts[0].id == id {
      MoveFirstHead(ts, id, c);
    } else {
      MoveFirstSkip(ts, id, c);
    }
  }

  /** Dropping the first task keeps identifiers unique, and no later task shares the first one's identifier. */
  lemma UniqueTail(ts: seq<Task>)
    requires UniqueIds(ts) && |ts| > 0
    ensures UniqueIds(ts[1..]) && NoTaskWithId(ts[1..], ts[0].id)
  {
    var rest := ts[1..];
    forall i, j | 0 <= i < |rest| && 0 <= j < |rest| && rest[i].id == rest[j].id ensures i == j {
      assert ts[i + 1].id == ts[j + 1].id;
    }
    forall j | 0 <= j < |rest| ensures rest[j].id != ts[0].id {
      assert ts[j + 1].id == rest[j].id;
    }
  }

  /** The search filter unrolled by one element. */
  lemma FilterByTermCons(x: Task, rest: seq<Task>, term: string)
    ensures FilterByTerm([x] + rest, term)
            == (if Matches(x, term) then [x] else []) + FilterByTerm(rest, term)
  {
    assert ([x] + rest)[0] == x && ([x] + rest)[1..] == rest;
  }

  /** Filtering cannot bring in an identifier that was absent. */
  lemma NoIdAfterFilter(ts: seq<Task>, id: int, term: string)
    requires NoTaskWithId(ts, id)
    ensures NoTaskWithId(FilterByTerm(ts, term), id)
  {
    var f := FilterByTerm(ts, term);
    forall j | 0 <= j < |f| ensures f[j].id != id {
      FilterMembership(ts, MatchesTerm(term), f[j]);
    }
  }

  /** With unique identifiers, moving then filtering equals filtering then moving. */
  lemma {:induction false} MoveCommutesWithFilter(ts: seq<Task>, id: int, c: Column, term: string)
    requires UniqueIds(ts)
    ensures FilterByTerm(MoveFirst(ts, id, c), term) == MoveFirst(FilterByTerm(ts, term), id, c)
  {
    if |ts| > 0 {
      var x, rest := ts[0], ts[1..];
      assert ts == [x] + rest;
      UniqueTail(ts);
      MoveFirstCons(ts, id, c);
      FilterByTermCons(x, rest, term);
      if x.id == id {
        var moved := x.(column := c);
        assert Matches(moved, term) == Matches(x, term);
        FilterByTermCons(moved, rest, term);
        NoIdAfterFilter(rest, id, term);
        if Matches(x, term) {
          MoveFirstCons(FilterByTerm(ts, term), id, c);
        }
      } else {
        MoveCommutesWithFilter(rest, id, c, term);
        FilterByTermCons(x, MoveFirst(rest, id, c), term);
        if Matches(x, term) {
          MoveFirstCons(FilterByTerm(ts, term), id, c);
        }
      }
    }
  }

  /** With unique identifiers, `moveTask` keeps a synced store synced. */
  lemma MoveKeepsSync(s: State, id: int, c: Column)
    requires Synced(s) && UniqueIds(s.tasks)
    ensures Synced(Reduce(s, MoveTask(id, c)))
  {
    MoveCommutesWithFilter(s.tasks, id, c, s.searchTerm);
  }

  /**
   * Without unique identifiers, `moveTask` can move one task in the full list
   * and a different one in the shown list, so the shown list drifts from the filter.
   */
  lemma MoveDriftsOnDuplicateIds()
    ensures var a, b := Task(1, "a", "x", Backlog), Task(1, "bug", "y", Backlog);
            var s := InitialState().(tasks := [a, b], filteredTasks := [b], searchTerm := "bug");
            var s' := Reduce(s, MoveTask(1, Done));
            Synced(s) && IsSubsequence(s.filteredTasks, s.tasks)
            && !Synced(s') && s'.filteredTasks[0] !in s'.tasks && !IsSubsequence(s'.filteredTasks, s'.tasks)
  {
    var a, b := Task(1, "a", "x", Backlog), Task(1, "bug", "y", Backlog);
    assert ToLower("bug") == "bug";
    assert !Matches(a, "bug");
    assert Matches(b, "bug");
    assert [a, b][1..] == [b] && [b][1..] == [];
    assert FilterByTerm([b], "bug") == [b];
    assert FilterByTerm([a, b], "bug") == [b];
    assert IsFirstWithId([a, b], 1, 0);
    assert IsFirstWithId([b], 1, 0);
    var s := InitialState().(tasks := [a, b], filteredTasks := [b], searchTerm := "bug");
    var s' := Reduce(s, MoveTask(1, Done));
    assert s'.tasks == [a.(column := Done), b];
    assert s'.tasks[1..] == [b];
    assert !Matches(s'.tasks[0], "bug");
    assert FilterByTerm(s'.tasks, "bug") == [b];
    assert s'.filteredTasks == [b.(column := Done)];
    if IsSubsequence(s'.filteredTasks, s'.tasks) {
      SubsequenceMembership(s'.filteredTasks, s'.tasks, s'.filteredTasks[0]);
    }
  }

  /**
   * Over a list with unique identifiers, moving the first match in the list and
   * in a subsequence of it keeps the subsequence relation.
   */
  lemma {:induction false} MoveKeepsSubsequence(a: seq<Task>, b: seq<Task>, id: int, c: Column)
    requires IsSubsequence(a, b) && UniqueIds(b)
    ensures IsSubsequence(MoveFirst(a, id, c), MoveFirst(b, id, c))
    decreases |b|
  {
    if |a| == 0 {
      assert MoveFirst(a, id, c) == [];
    } else {
      var x, rest := b[0], b[1..];
      UniqueTail(b);
      if a[0] == x && IsSubsequence(a[1..], rest) {
        if x.id == id {
          MoveFirstHead(a, id, c);
          MoveFirstHead(b, id, c);
          var ma, mb := MoveFirst(a, id, c), MoveFirst(b, id, c);
          assert ma[0] == mb[0] && ma[1..] == a[1..] && mb[1..] == rest;
        } else {
          MoveFirstSkip(a, id, c);
          MoveFirstSkip(b, id, c);
          MoveKeepsSubsequence(a[1..], rest, id, c);
          var ma, mb := MoveFirst(a, id, c), MoveFirst(b, id, c);
          assert ma[0] == mb[0] && ma[1..] == MoveFirst(a[1..], id, c) && mb[1..] == MoveFirst(rest, id, c);
        }
      } else {
        if x.id == id {
          MoveFirstHead(b, id, c);
          forall j | 0 <= j < |a| ensures a[j].id != id {
            SubsequenceMembership(a, rest, a[j]);
          }
          SubsequenceCons(a, rest, x.(column := c));
        } else {
          MoveFirstSkip(b, id, c);
          MoveKeepsSubsequence(a, rest, id, c);
          SubsequenceCons(MoveFirst(a, id, c), MoveFirst(rest, id, c), x);
        }
      }
    }
  }

  /**
   * The shown list stays an in-order selection of the task list under every
   * action, provided identifiers are unique when a task is moved.
   */
  lemma ReducePreservesSubsequence(s: State, a: Action)
    requires IsSubsequence(s.filteredTasks, s.tasks)
    requires a.MoveTask? ==> UniqueIds(s.tasks)
    ensures IsSubsequence(Reduce(s, a).filteredTasks, Reduce(s, a).tasks)
  {
    match a
    case SetTasks(p) => SubsequenceRefl(p);
    case AddTask(t) => FilterIsSubsequence(s.tasks + [t], MatchesTerm(s.searchTerm));
    case UpdateTask(t) =>
      if FirstWithId(s.tasks, t.id).Some? {
        FilterIsSubsequence(ReplaceFirst(s.tasks, t), MatchesTerm(s.searchTerm));
      }
    case DeleteTask(id) => DeleteKeepsSubsequence(s, id);
    case MoveTask(id, c) => MoveKeepsSubsequence(s.filteredTasks, s.tasks, id, c);
    case SetSearchTerm(term) => FilterIsSubsequence(s.tasks, MatchesTerm(term));
    case SetPagination(_, _, _) =>
    case SetLoading(_) =>
    case SetError(_) =>
  }

  /** `setPagination` sets the named column's entry and no other part of the store. */
  lemma SetPaginationOnlyNamed(s: State, column: string, page: int, totalPages: int)
    ensures var s' := Reduce(s, SetPagination(column, page, totalPages));
            s'.pagination[column] == PageEntry(page, totalPages)
            && (forall k :: k != column ==> (k in s'.pagination <==> k in s.pagination))
            && (forall k :: k != column && k in s.pagination ==> s'.pagination[k] == s.pagination[k])
            && s' == s.(pagination := s'.pagination)
  {
  }

  /** `setLoading` and `setError` each change their own field and nothing else. */
  lemma FlagsOnlyTheirField(s: State, b: bool, e: Option<string>)
    ensures Reduce(s, SetLoading(b)) == s.(loading := b)
    ensures Reduce(s, SetError(e)) == s.(error := e)
  {
  }

  /** The store object, updated in place by its reducers. */
  class TaskStore {
    var tasks: seq<Task>
    var filteredTasks: seq<Task>
    var searchTerm: string
    var pagination: map<string, PageEntry>
    var loading: bool
    var error: Option<string>

    function Snapshot(): State
      reads this
    {
      State(tasks, filteredTasks, searchTerm, pagination, loading, error)
    }

    /** The store's `initialState`. */
    constructor ()
      ensures Snapshot() == InitialState()
    {
      tasks := [];
      filteredTasks := [];
      searchTerm := "";
      pagination := InitialPagination();
      loading := false;
      error := None;
    }

    method SetTasks(payload: seq<Task>)
      modifies this
      ensures Snapshot() == Reduce(old(Snapshot()), Action.SetTasks(payload))
    {
      tasks := payload;
      filteredTasks := payload;
    }

    method AddTask(t: Task)
      modifies this
      ensures Snapshot() == Reduce(old(Snapshot()), Action.AddTask(t))
    {
      tasks := tasks + [t];
      filteredTasks := FilterByTerm(tasks, searchTerm);
    }

    method UpdateTask(t: Task)
      modifies this
      ensures Snapshot() == Reduce(old(Snapshot()), Action.UpdateTask(t))
    {
      var index := FirstWithId(tasks, t.id);
      if index.Some? {
        tasks := tasks[index.value := t];
        filteredTasks := FilterByTerm(tasks, searchTerm);
      }
    }

    method DeleteTask(id: int)
      modifies this
      ensures Snapshot() == Reduce(old(Snapshot()), Action.DeleteTask(id))
    {
      tasks := Filter(tasks, OtherId(id));
      filteredTasks := Filter(filteredTasks, OtherId(id));
    }

    method MoveTask(taskId: int, newColumn: Column)
      modifies this
      ensures Snapshot() == Reduce(old(Snapshot()), Action.MoveTask(taskId, newColumn))
    {
      var found := FirstWithId(tasks, taskId);
      if found.Some? {
        tasks := tasks[found.value := tasks[found.value].(column := newColumn)];
      }
      var filteredFound := FirstWithId(filteredTasks, taskId);
      if filteredFound.Some? {
        filteredTasks := filteredTasks[filteredFound.value := filteredTasks[filteredFound.value].(column := newColumn)];
      }
    }

    method SetSearchTerm(term: string)
      modifies this
      ensures Snapshot() == Reduce(old(Snapshot()), Action.SetSearchTerm(term))
    {
      searchTerm := term;
      filteredTasks := FilterByTerm(tasks, term);
    }

    method SetPagination(column: string, page: int, totalPages: int)
      modifies this
      ensures Snapshot() == Reduce(old(Snapshot()), Action.SetPagination(column, page, totalPages))
    {
      pagination := pagination[column := PageEntry(page, totalPages)];
    }

    method SetLoading(isLoading: bool)
      modifies this
      ensures Snapshot() == Reduce(old(Snapshot()), Action.SetLoading(isLoading))
    {
      loading := isLoading;
    }

    method SetError(message: Option<string>)
      modifies this
      ensures Snapshot() == Reduce(old(Snapshot()), Action.SetError(message))
    {
      error := message;
    }

    /** `dispatch`: routes an action to its reducer. */
    method Dispatch(a: Action)
      modifies this
      ensures Snapshot() == Reduce(old(Snapshot()), a)
    {
      match a
      case SetTasks(p) => SetTasks(p);
      case AddTask(t) => AddTask(t);
      case UpdateTask(t) => UpdateTask(t);
      case DeleteTask(id) => DeleteTask(id);
      case MoveTask(id, c) => MoveTask(id, c);
      case SetSearchTerm(term) => SetSearchTerm(term);
      case SetPagination(column, page, totalPages) => SetPagination(column, page, totalPages);
      case SetLoading(b) => SetLoading(b);
      case SetError(e) => SetError(e);
    }
  }
}
