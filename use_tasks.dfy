/**
 * What happens when a request to the task server settles: the new contents
 * of the cached task list (the `setQueryData` updaters) and the one action
 * dispatched to the task store. The server itself is not modelled; its answer
 * is a parameter, a value or an error message.
 */
module UseTasks {
  import opened Wrappers
  import opened Constants
  import opened JsArray
  import opened TaskSlice
  import Board

  /** How a request ended: the value the server sent, or the message of the error. */
  datatype Outcome<T> = Success(value: T) | Failure(message: string)

  /** The cached list afterwards (None while nothing is cached) and the action dispatched. */
  datatype Reaction = Reaction(cache: Option<seq<Task>>, action: Action)

  /** The create updater `(oldTasks = []) => [...oldTasks, newTask]`: the new task at the end. */
  function AppendUpdater(cache: Option<seq<Task>>, newTask: Task): (r: seq<Task>)
    ensures |r| == |cache.GetOr([])| + 1
    ensures r[..|cache.GetOr([])|] == cache.GetOr([]) && r[|cache.GetOr([])|] == newTask
  {
    cache.GetOr([]) + [newTask]
  }

  function ReplaceById(u: Task): Task -> Task {
    (t: Task) => if t.id == u.id then u else t
  }

  /** The update and move updater: every cached task with the answer's identifier becomes the answer. */
  function ReplaceUpdater(cache: Option<seq<Task>>, updated: Task): (r: seq<Task>)
    ensures |r| == |cache.GetOr([])|
    ensures forall i :: 0 <= i < |r| && cache.GetOr([])[i].id == updated.id ==> r[i] == updated
    ensures forall i :: 0 <= i < |r| && cache.GetOr([])[i].id != updated.id ==> r[i] == cache.GetOr([])[i]
  {
    Map(cache.GetOr([]), ReplaceById(updated))
  }

  /**
   * The delete updater: every cached task with the identifier is dropped, and
   * every other one stays, as often as it was cached and in the same order.
   */
  function RemoveUpdater(cache: Option<seq<Task>>, deletedId: int): (r: seq<Task>)
    ensures NoTaskWithId(r, deletedId)
    ensures forall x :: x in r <==> x in cache.GetOr([]) && x.id != deletedId
    ensures forall x :: multiset(r)[x] == if x.id != deletedId then multiset(cache.GetOr([]))[x] else 0
    ensures IsSubsequence(r, cache.GetOr([]))
  {
    RemoveId(cache.GetOr([]), deletedId)
  }

  /** An error only records its message: the cache stays as it was, and so does every store field but the error. */
  function OnError(cache: Option<seq<Task>>, message: string): (r: Reaction)
    ensures r.cache == cache
    ensures forall s :: Reduce(s, r.action) == s.(error := Some(message))
  {
    Reaction(cache, SetError(Some(message)))
  }

  /** Loading the list: the query caches it and the store receives it, so the two agree whatever the store held. */
  function FetchSettled(cache: Option<seq<Task>>, r: Outcome<seq<Task>>): (x: Reaction)
    ensures r.Failure? ==> x == OnError(cache, r.message)
    ensures r.Success? ==> x.cache == Some(r.value) && forall s :: Reduce(s, x.action).tasks == r.value
  {
    match r
    case Success(data) => Reaction(Some(data), SetTasks(data))
    case Failure(message) => OnError(cache, message)
  }

  /** A created task is appended in the cache and dispatched to the store. */
  function CreateSettled(cache: Option<seq<Task>>, r: Outcome<Task>): (x: Reaction)
    ensures r.Failure? ==> x == OnError(cache, r.message)
    ensures r.Success? ==> x.action == AddTask(r.value) && x.cache == Some(cache.GetOr([]) + [r.value])
  {
    match r
    case Success(newTask) => Reaction(Some(AppendUpdater(cache, newTask)), AddTask(newTask))
    case Failure(message) => OnError(cache, message)
  }

  /** An updated task replaces every cached task with its identifier, the others stay, and it is dispatched to the store. */
  function UpdateSettled(cache: Option<seq<Task>>, r: Outcome<Task>): (x: Reaction)
    ensures r.Failure? ==> x == OnError(cache, r.message)
    ensures r.Success? ==>
              x.action == UpdateTask(r.value) && x.cache.Some? && |x.cache.value| == |cache.GetOr([])|
              && forall i :: 0 <= i < |cache.GetOr([])| ==>
                   x.cache.value[i] == if cache.GetOr([])[i].id == r.value.id then r.value else cache.GetOr([])[i]
  {
    match r
    case Success(updated) => Reaction(Some(ReplaceUpdater(cache, updated)), UpdateTask(updated))
    case Failure(message) => OnError(cache, message)
  }

  /**
   * A deleted identifier goes through the delete updater, so it leaves no cached
   * task and every other cached task stays in order; it is dispatched to the store.
   */
  function DeleteSettled(cache: Option<seq<Task>>, r: Outcome<int>): (x: Reaction)
    ensures r.Failure? ==> x == OnError(cache, r.message)
    ensures r.Success? ==>
              x.action == DeleteTask(r.value) && x.cache == Some(RemoveUpdater(cache, r.value))
              && NoTaskWithId(x.cache.value, r.value)
  {
    match r
    case Success(deletedId) => Reaction(Some(RemoveUpdater(cache, deletedId)), DeleteTask(deletedId))
    case Failure(message) => OnError(cache, message)
  }

  /** A move stores the server's whole answer in the cache, but tells the store only its identifier and column. */
  function MoveSettled(cache: Option<seq<Task>>, r: Outcome<Task>): (x: Reaction)
    ensures r.Failure? ==> x == OnError(cache, r.message)
    ensures r.Success? ==>
              x.action == MoveTask(r.value.id, r.value.column) && x.cache.Some? && |x.cache.value| == |cache.GetOr([])|
              && forall i :: 0 <= i < |cache.GetOr([])| ==>
                   x.cache.value[i] == if cache.GetOr([])[i].id == r.value.id then r.value else cache.GetOr([])[i]
  {
    match r
    case Success(updated) => Reaction(Some(ReplaceUpdater(cache, updated)), MoveTask(updated.id, updated.column))
    case Failure(message) => OnError(cache, message)
  }

  /** Whichever request fails, the cache and both task lists stay as they were; only the error is set. */
  lemma FailureOnlySetsError(cache: Option<seq<Task>>, s: State, message: string)
    ensures FetchSettled(cache, Failure(message)).cache == cache
    ensures CreateSettled(cache, Failure(message)).cache == cache
    ensures UpdateSettled(cache, Failure(message)).cache == cache
    ensures DeleteSettled(cache, Failure(message)).cache == cache
    ensures MoveSettled(cache, Failure(message)).cache == cache
    ensures forall a :: a in {FetchSettled(cache, Failure(message)).action, CreateSettled(cache, Failure(message)).action,
                              UpdateSettled(cache, Failure(message)).action, DeleteSettled(cache, Failure(message)).action,
                              MoveSettled(cache, Failure(message)).action}
              ==> Reduce(s, a) == s.(error := Some(message))
  {
  }

  /** Cache and store agree on the task list: the cached list is the store's list. */
  predicate Agree(cache: Option<seq<Task>>, s: State) {
    cache == Some(s.tasks)
  }

  /** A created or deleted task keeps cache and store in agreement. */
  lemma CreateDeleteKeepAgreement(cache: Option<seq<Task>>, s: State, t: Task, id: int)
    requires Agree(cache, s)
    ensures var r := CreateSettled(cache, Success(t)); Agree(r.cache, Reduce(s, r.action))
    ensures var r := DeleteSettled(cache, Success(id)); Agree(r.cache, Reduce(s, r.action))
  {
  }

  /**
   * With unique identifiers, replacing every copy (the cache) and replacing
   * the first copy (the store) are the same, so an update keeps agreement.
   */
  lemma UpdateKeepsAgreement(cache: Option<seq<Task>>, s: State, u: Task)
    requires Agree(cache, s) && UniqueIds(s.tasks)
    ensures var r := UpdateSettled(cache, Success(u)); Agree(r.cache, Reduce(s, r.action))
  {
    var ts := s.tasks;
    var r := ReplaceUpdater(cache, u);
    var stored := Reduce(s, UpdateTask(u)).tasks;
    match FirstWithId(ts, u.id)
    case None =>
      assert r == ts;
    case Some(i) =>
      assert stored == ReplaceFirst(ts, u);
      forall j | 0 <= j < |r| ensures r[j] == stored[j] {
        if j != i {
          assert ts[j].id != u.id;
        }
      }
      assert r == stored;
  }

  /**
   * With unique identifiers, a move whose answer is the stored task with only
   * its column changed leaves cache and store in agreement.
   */
  lemma MoveKeepsAgreement(cache: Option<seq<Task>>, s: State, u: Task, i: int)
    requires Agree(cache, s) && UniqueIds(s.tasks)
    requires 0 <= i < |s.tasks| && u == s.tasks[i].(column := u.column)
    ensures var r := MoveSettled(cache, Success(u)); Agree(r.cache, Reduce(s, r.action))
  {
    var ts := s.tasks;
    var r := ReplaceUpdater(cache, u);
    var stored := Reduce(s, MoveTask(u.id, u.column)).tasks;
    assert IsFirstWithId(ts, u.id, i);
    assert stored == MoveFirst(ts, u.id, u.column);
    forall j | 0 <= j < |r| ensures r[j] == stored[j] {
      if j != i {
        assert ts[j].id != u.id;
      }
    }
    assert r == stored;
  }

  /** With two cached copies of one identifier, an update replaces both in the cache and only the first in the store. */
  lemma UpdateDiffersOnDuplicateIds()
    ensures var a, u := Task(1, "a", "x", Backlog), Task(1, "b", "y", Done);
            var s := InitialState().(tasks := [a, a]);
            ReplaceUpdater(Some([a, a]), u) == [u, u]
            && Reduce(s, UpdateTask(u)).tasks == [u, a]
  {
    var a, u := Task(1, "a", "x", Backlog), Task(1, "b", "y", Done);
    assert IsFirstWithId([a, a], 1, 0);
    assert ReplaceUpdater(Some([a, a]), u) == [u, u];
  }

  /** If the server's answer to a move also differs in title, the cache holds the new title and the store the old one. */
  lemma MoveCacheTakesWholeAnswer()
    ensures var t, u := Task(3, "old", "d", Backlog), Task(3, "new", "d", Review);
            var s := InitialState().(tasks := [t]);
            var r := MoveSettled(Some([t]), Success(u));
            r.cache == Some([u]) && Reduce(s, r.action).tasks == [t.(column := Review)]
  {
    var t, u := Task(3, "old", "d", Backlog), Task(3, "new", "d", Review);
    assert IsFirstWithId([t], 3, 0);
    assert ReplaceUpdater(Some([t]), u) == [u];
  }

  /**
   * A drop of task 7 onto the review column, answered by the server with the
   * task moved, leaves task 7 in review in the store with its other fields
   * unchanged, and every other task as it was.
   */
  lemma DropMovesTaskInStore(s: State, i: int)
    requires UniqueIds(s.tasks) && 0 <= i < |s.tasks| && s.tasks[i].id == 7
    ensures var drop := Board.DropResult("7", Board.DraggableLocation("backlog", 0),
                                         Some(Board.DraggableLocation("review", 2)));
            Board.IssuedMove(drop) == Some(Board.MoveRequest(Some(7), Review))
            && var s' := Reduce(s, MoveSettled(Some(s.tasks), Success(s.tasks[i].(column := Review))).action);
               |s'.tasks| == |s.tasks| && s'.tasks[i] == s.tasks[i].(column := Review)
               && forall j :: 0 <= j < |s.tasks| && j != i ==> s'.tasks[j] == s.tasks[j]
  {
    Board.DropSevenOnReview();
    assert IsFirstWithId(s.tasks, 7, i);
  }
}
