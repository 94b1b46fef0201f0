/**
 * The UI store's task dialog: whether it is open, in which mode, and for
 * which task. `Opened` and `Closed` are the two reducers' meaning; the class
 * `UiStore` updates the three fields in place and is proved to agree with them.
 */
module UiSlice {
  import opened Wrappers
  import opened Constants
  import opened TaskSlice

  /** The dialog's mode; every mode string other than `'edit'` is treated as create. */
  datatype Mode = CreateMode | EditMode

  /**
   * The task handed to the dialog: a stored task when editing; when creating
   * from a column, a template with no identifier and that column.
   */
  datatype ModalTask = ModalTask(id: Option<int>, title: string, description: string, column: Column)

  datatype TaskModal = TaskModal(isOpen: bool, mode: Mode, task: Option<ModalTask>)

  /** The stored task as the edit button hands it to the dialog. */
  function FromTask(t: Task): (m: ModalTask)
    ensures m.id == Some(t.id) && m.title == t.title && m.description == t.description && m.column == t.column
  {
    ModalTask(Some(t.id), t.title, t.description, t.column)
  }

  /** The slice's initial state: closed, in create mode, with no task. */
  function InitialTaskModal(): (m: TaskModal)
    ensures !m.isOpen && m.mode == CreateMode && m.task.None?
  {
    TaskModal(false, CreateMode, None)
  }

  /** `openTaskModal({mode, task})`: a missing task is stored as null. */
  function Opened(m: TaskModal, mode: Mode, task: Option<ModalTask>): (r: TaskModal)
    ensures r.isOpen && r.mode == mode && r.task == task
  {
    m.(isOpen := true, mode := mode, task := task)
  }

  /** `closeTaskModal()`. */
  function Closed(m: TaskModal): (r: TaskModal)
    ensures !r.isOpen && r.mode == CreateMode && r.task.None?
  {
    m.(isOpen := false, mode := CreateMode, task := None)
  }

  /** Closing yields the initial dialog state whatever the state was, so closing twice is closing once. */
  lemma CloseIsInitial(m: TaskModal)
    ensures Closed(m) == InitialTaskModal()
    ensures Closed(Closed(m)) == Closed(m)
  {
  }

  /** Opening and then closing returns to the initial state, whatever was opened. */
  lemma OpenThenClose(m: TaskModal, mode: Mode, task: Option<ModalTask>)
    ensures Closed(Opened(m, mode, task)) == InitialTaskModal()
  {
  }

  class UiStore {
    var isOpen: bool
    var mode: Mode
    var task: Option<ModalTask>

    function Snapshot(): TaskModal
      reads this
    {
      TaskModal(isOpen, mode, task)
    }

    /** The UI store's `initialState`. */
    constructor ()
      ensures Snapshot() == InitialTaskModal()
    {
      isOpen := false;
      mode := CreateMode;
      task := None;
    }

    method OpenTaskModal(newMode: Mode, newTask: Option<ModalTask>)
      modifies this
      ensures Snapshot() == Opened(old(Snapshot()), newMode, newTask)
    {
      isOpen := true;
      mode := newMode;
      task := newTask;
    }

    method CloseTaskModal()
      modifies this
      ensures Snapshot() == Closed(old(Snapshot()))
    {
      isOpen := false;
      mode := CreateMode;
      task := None;
    }
  }
}
