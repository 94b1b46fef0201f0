/**
 * One column of the board: which of the shown tasks belong to it, how they are
 * split into pages of `TasksPerPage`, which page is current, which empty-state
 * message appears, and what the column's "Add Task" button asks the dialog for.
 */
module ColumnView {
  import opened Wrappers
  import opened Constants
  import opened JsArray
  import opened TaskSlice
  import opened UiSlice

  function InColumn(c: Column): Task -> bool {
    (t: Task) => t.column == c
  }

  /** `filteredTasks.filter(task => task.column === columnId)`. */
  function ColumnTasks(filtered: seq<Task>, c: Column): (r: seq<Task>)
    ensures |r| <= |filtered|
    ensures forall i :: 0 <= i < |r| ==> r[i].column == c
  {
    Filter(filtered, InColumn(c))
  }

  /** A column shows, in the store's order, exactly the shown tasks that are in that column. */
  lemma ColumnTasksSelects(filtered: seq<Task>, c: Column, x: Task)
    ensures IsSubsequence(ColumnTasks(filtered, c), filtered)
    ensures forall i :: 0 <= i < |ColumnTasks(filtered, c)| ==> ColumnTasks(filtered, c)[i].column == c
    ensures x in ColumnTasks(filtered, c) <==> x in filtered && x.column == c
    ensures multiset(ColumnTasks(filtered, c))[x] == if x.column == c then multiset(filtered)[x] else 0
  {
    FilterIsSubsequence(filtered, InColumn(c));
    FilterMembership(filtered, InColumn(c), x);
    FilterCount(filtered, InColumn(c), x);
  }

  /** `Math.ceil(n / TASKS_PER_PAGE)`: the fewest pages that hold `n` tasks; no pages at all for none. */
  function TotalPages(n: nat): (r: nat)
    ensures r * TasksPerPage >= n
    ensures r > 0 ==> (r - 1) * TasksPerPage < n
    ensures r == 0 <==> n == 0
  {
    (n + TasksPerPage - 1) / TasksPerPage
  }

  /** `(currentPage - 1) * TASKS_PER_PAGE`: page `page` starts after `page - 1` full pages. */
  function StartIndex(page: int): (k: int)
    ensures page >= 1 ==> k >= 0 && k % TasksPerPage == 0 && k / TasksPerPage == page - 1
  {
    (page - 1) * TasksPerPage
  }

  /** `startIndex + TASKS_PER_PAGE`: a page ends where the next one starts. */
  function EndIndex(page: int): (k: int)
    ensures k == StartIndex(page + 1)
  {
    StartIndex(page) + TasksPerPage
  }

  /**
   * `columnTasks.slice(startIndex, endIndex)`: for a page from 1 on, the tasks
   * from `(page - 1) * 3` up to `page * 3` or the end, at most three of them,
   * and none when the page starts past the end.
   */
  function PageTasks(ct: seq<Task>, page: int): (r: seq<Task>)
    ensures page >= 1 && StartIndex(page) < |ct| ==> r == ct[StartIndex(page)..Min(page * TasksPerPage, |ct|)]
    ensures page >= 1 && StartIndex(page) >= |ct| ==> r == []
    ensures page >= 1 ==> |r| <= TasksPerPage
    ensures page == 0 ==> r == []
  {
    Slice(ct, StartIndex(page), EndIndex(page))
  }

  /** Pages 1 to `k`, one after another. */
  function AllPages(ct: seq<Task>, k: nat): seq<Task> {
    if k == 0 then [] else AllPages(ct, k - 1) + PageTasks(ct, k)
  }

  /** The first `k` pages together are the first `3k` tasks (or all of them). */
  lemma {:induction false} FirstPages(ct: seq<Task>, k: nat)
    ensures AllPages(ct, k) == ct[..Min(k * TasksPerPage, |ct|)]
  {
    if k > 0 {
      FirstPages(ct, k - 1);
      var a := Min((k - 1) * TasksPerPage, |ct|);
      var b := Min(k * TasksPerPage, |ct|);
      if StartIndex(k) < |ct| {
        assert ct[..a] + ct[a..b] == ct[..b];
      } else {
        assert a == b;
      }
    }
  }

  /** Reading every page in order gives back the column: no task twice, none left out. */
  lemma PagesCoverColumn(ct: seq<Task>)
    ensures AllPages(ct, TotalPages(|ct|)) == ct
  {
    FirstPages(ct, TotalPages(|ct|));
  }

  /** Every page the pager offers has at least one task on it. */
  lemma PagesInRangeNonEmpty(ct: seq<Task>, page: int)
    requires 1 <= page <= TotalPages(|ct|)
    ensures 1 <= |PageTasks(ct, page)| <= TasksPerPage
  {
  }

  /** Four tasks make two pages: the first three, then the fourth. */
  lemma FourTasksTwoPages(ct: seq<Task>)
    requires |ct| == 4
    ensures TotalPages(|ct|) == 2
    ensures PageTasks(ct, 1) == ct[..3]
    ensures PageTasks(ct, 2) == [ct[3]]
    ensures PageTasks(ct, 3) == []
  {
  }

  /** The pager is drawn when there is more than one page, that is when the column holds more than a page. */
  predicate ShowsPager(ct: seq<Task>) {
    TotalPages(|ct|) > 1
  }

  lemma ShowsPagerIff(ct: seq<Task>)
    ensures ShowsPager(ct) <==> |ct| > TasksPerPage
  {
  }

  /** "No tasks in this column". */
  predicate ShowsNoTasksInColumn(ct: seq<Task>, visible: seq<Task>) {
    |visible| == 0 && |ct| == 0
  }

  /** "No tasks found on this page". */
  predicate ShowsNoTasksOnPage(ct: seq<Task>, visible: seq<Task>) {
    |visible| == 0 && |ct| > 0
  }

  /**
   * The first message appears exactly for an empty column; the second exactly
   * when the page is empty though the column is not; never both; and never the
   * second on a page the pager offers.
   */
  lemma EmptyStates(ct: seq<Task>, page: int)
    ensures ShowsNoTasksInColumn(ct, PageTasks(ct, page)) <==> |ct| == 0
    ensures ShowsNoTasksOnPage(ct, PageTasks(ct, page)) <==> |PageTasks(ct, page)| == 0 && |ct| > 0
    ensures !(ShowsNoTasksInColumn(ct, PageTasks(ct, page)) && ShowsNoTasksOnPage(ct, PageTasks(ct, page)))
    ensures 1 <= page <= TotalPages(|ct|) ==> !ShowsNoTasksOnPage(ct, PageTasks(ct, page))
  {
  }

  /** `handleAddTask`: open the dialog to create a blank task in this column. */
  function AddTaskPayload(c: Column): (r: (Mode, Option<ModalTask>))
    ensures r.0 == CreateMode
    ensures r.1.Some? && r.1.value.id.None? && r.1.value.column == c
    ensures r.1.value.title == "" && r.1.value.description == ""
  {
    (CreateMode, Some(ModalTask(None, "", "", c)))
  }

  /**
   * The column's `currentPage` state and its reset effect. `seenTerm` and
   * `seenCount` are the effect's dependencies as of the last render.
   */
  class Pager {
    var currentPage: int
    var seenTerm: string
    var seenCount: nat

    /** Mounting: the page starts at 1 and the effect records its dependencies. */
    constructor (term: string, count: nat)
      ensures currentPage == 1 && seenTerm == term && seenCount == count
    {
      currentPage := 1;
      seenTerm := term;
      seenCount := count;
    }

    /** The effect after a render with this term and column size: back to page 1 when either changed. */
    method AfterRender(term: string, count: nat)
      modifies this
      ensures seenTerm == term && seenCount == count
      ensures term != old(seenTerm) || count != old(seenCount) ==> currentPage == 1
      ensures term == old(seenTerm) && count == old(seenCount) ==> currentPage == old(currentPage)
    {
      if term != seenTerm || count != seenCount {
        currentPage := 1;
      }
      seenTerm, seenCount := term, count;
    }

    /** `handlePageChange`: the page chosen in the pager becomes current; nothing else changes. */
    method HandlePageChange(value: int)
      modifies this
      ensures currentPage == value
      ensures seenTerm == old(seenTerm) && seenCount == old(seenCount)
    {
      currentPage := value;
    }
  }
}
