/** The task view of one project (src/services/task_s.rs): the project's active and
    completed tasks as two selection lists with a focus, and the input and message popups
    through which tasks are added and described. Every change is written to the project's
    file, after which the view reloads both lists from it. */
module TaskView {
  import opened Wrappers
  import opened Ui
  import opened TaskModel
  import opened ProjectModel
  import opened Storage
  import Popups

  /** What the input popup is collecting (src/services/task_s.rs:22-26). */
  datatype TaskInputChoice = AddName | EditDescription

  const TaskControls :=
    "Navigate with arrows | C: Mark as completed | U: Mark as incomplete | A: Add task | E: Edit task description | Tab: Back To Projects"
  const InvalidTaskMessage := "Selected task is invalid"
  const AddTaskTitle := "Enter Task Name"
  const EditDescriptionTitle := "Edit tasks description"
  /** The description every added task starts with. */
  const NewTaskDescription := "Description"

  /** The fields of `TaskService` (src/services/task_s.rs:29-39). */
  datatype TaskViewState = TaskViewState(
    projectFile: Path,
    project: Project,
    active: ListState<Task>,
    completed: ListState<Task>,
    focusedOnActive: bool,
    mode: InputMode,
    input: InputState,
    inputType: TaskInputChoice,
    message: MessageState)

  /** The view together with the file system it reads and writes. */
  datatype World = World(view: TaskViewState, fs: Fs)

  /** The environment's answers for the calls one key can make: at most one write and
      one load. */
  datatype Io = Io(write: Outcome, load: Outcome)

  function Focused(s: TaskViewState): ListState<Task>
  {
    if s.focusedOnActive then s.active else s.completed
  }

  /** `TaskService::new` (src/services/task_s.rs:42-62): the file `<name>.pman` in the
      working directory is loaded, and an unreadable one gives an empty project without
      any popup. */
  function Initial(fs: Fs, workingDir: string, projectName: string, o: Outcome): (s: TaskViewState)
    ensures s.projectFile == ProjectPath(workingDir, projectName)
    ensures s.project == match Load(fs, s.projectFile, o) case Ok(p) => p case Err(_) => DefaultProject
    ensures s.active == ListFrom(s.project.activeTasks) && s.completed == ListFrom(s.project.completedTasks)
    ensures s.focusedOnActive && s.mode == CommandMode && s.inputType == AddName
    ensures s.input == DefaultInput && s.message == DefaultMessage
  {
    var path := ProjectPath(workingDir, projectName);
    var project := match Load(fs, path, o) case Ok(p) => p case Err(_) => DefaultProject;
    TaskViewState(path, project, ListFrom(project.activeTasks), ListFrom(project.completedTasks),
      true, CommandMode, DefaultInput, AddName, DefaultMessage)
  }

  /** `add_task_command` (src/services/task_s.rs:64-68). */
  function AddingTask(s: TaskViewState): (r: TaskViewState)
    ensures r.mode == WriteMode && r.inputType == AddName && r.input == NewInput(AddTaskTitle)
    ensures r.(mode := s.mode, inputType := s.inputType, input := s.input) == s
  {
    s.(inputType := AddName, mode := WriteMode, input := NewInput("Enter Task Name"))
  }

  /** `edit_task_description` (src/services/task_s.rs:70-85): a fresh input popup holding
      the selected task's description in the focused list, or nothing. */
  function EditingDescription(s: TaskViewState): (r: TaskViewState)
    requires !SelectionOutOfRange(Focused(s))
    ensures r.mode == WriteMode && r.inputType == EditDescription
    ensures r.input == Popups.WithText(NewInput(EditDescriptionTitle), r.input.text)
    ensures Focused(s).selected.None? ==> r.input.text == ""
    ensures Focused(s).selected.Some? ==> r.input.text == Focused(s).items[Focused(s).selected.value].description
    ensures r.(mode := s.mode, inputType := s.inputType, input := s.input) == s
  {
    var l := Focused(s);
    var text := match l.selected case Some(i) => l.items[i].description case None => "";
    s.(inputType := EditDescription, mode := WriteMode,
       input := Popups.WithText(NewInput("Edit tasks description"), text))
  }

  /** Writes the project to its file; a failure becomes a message popup. */
  function Saved(w: World, o: Outcome): (r: World)
    ensures r.fs == Write(w.fs, w.view.projectFile, w.view.project, o).fs
    ensures Write(w.fs, w.view.projectFile, w.view.project, o).result.Ok? ==> r.view == w.view
    ensures Write(w.fs, w.view.projectFile, w.view.project, o).result.Err? ==>
      r.view == w.view.(message := NewMessage(Write(w.fs, w.view.projectFile, w.view.project, o).result.message))
  {
    var e := Write(w.fs, w.view.projectFile, w.view.project, o);
    match e.result
    case Ok(_) => World(w.view, e.fs)
    case Err(m) => World(w.view.(message := NewMessage(m)), e.fs)
  }

  /** `mark_selected_task_as_completed` (src/services/task_s.rs:87-106): the selected
      active task moves to the end of the completed tasks, the project mirrors both lists,
      and the project is written. Nothing happens without a selection. */
  function MovedToCompleted(w: World, o: Outcome): (r: World)
    requires !SelectionOutOfRange(w.view.active)
    ensures w.view.active.selected.None? ==> r == w
    ensures w.view.active.selected.Some? ==>
      var i := w.view.active.selected.value;
      && r.view.completed.items == w.view.completed.items + [w.view.active.items[i]]
      && r.view.active.items == RemoveAt(w.view.active.items, i)
      && r.view.active.selected == w.view.active.selected
      && r.view.completed.selected == w.view.completed.selected
      && r.view.project.activeTasks == r.view.active.items
      && r.view.project.completedTasks == r.view.completed.items
      && r.fs == Write(w.fs, w.view.projectFile, r.view.project, o).fs
    ensures |r.view.active.items| + |r.view.completed.items| == |w.view.active.items| + |w.view.completed.items|
    ensures multiset(r.view.active.items) + multiset(r.view.completed.items)
         == multiset(w.view.active.items) + multiset(w.view.completed.items)
  {
    var s := w.view;
    match s.active.selected
    case None => w
    case Some(i) =>
      var completed := s.completed.items + [s.active.items[i]];
      var active := RemoveAt(s.active.items, i);
      var moved := s.(active := s.active.(items := active), completed := s.completed.(items := completed),
                      project := s.project.(activeTasks := active, completedTasks := completed));
      Saved(World(moved, w.fs), o)
  }

  /** `mark_selected_task_as_uncompleted` (src/services/task_s.rs:108-127): the mirror
      image of `MovedToCompleted`. */
  function MovedToActive(w: World, o: Outcome): (r: World)
    requires !SelectionOutOfRange(w.view.completed)
    ensures w.view.completed.selected.None? ==> r == w
    ensures w.view.completed.selected.Some? ==>
      var i := w.view.completed.selected.value;
      && r.view.active.items == w.view.active.items + [w.view.completed.items[i]]
      && r.view.completed.items == RemoveAt(w.view.completed.items, i)
      && r.view.active.selected == w.view.active.selected
      && r.view.completed.selected == w.view.completed.selected
      && r.view.project.activeTasks == r.view.active.items
      && r.view.project.completedTasks == r.view.completed.items
      && r.fs == Write(w.fs, w.view.projectFile, r.view.project, o).fs
    ensures |r.view.active.items| + |r.view.completed.items| == |w.view.active.items| + |w.view.completed.items|
    ensures multiset(r.view.active.items) + multiset(r.view.completed.items)
         == multiset(w.view.active.items) + multiset(w.view.completed.items)
  {
    var s := w.view;
    match s.completed.selected
    case None => w
    case Some(i) =>
      var active := s.active.items + [s.completed.items[i]];
      var completed := RemoveAt(s.completed.items, i);
      var moved := s.(active := s.active.(items := active), completed := s.completed.(items := completed),
                      project := s.project.(activeTasks := active, completedTasks := completed));
      Saved(World(moved, w.fs), o)
  }

  /** `update_project` (src/services/task_s.rs:133-144): the project is loaded again (an
      empty one plus a message popup when that fails) and both lists are rebuilt from it,
      each selecting its first task. */
  function Reloaded(s: TaskViewState, fs: Fs, o: Outcome): (r: TaskViewState)
    ensures Load(fs, s.projectFile, o).Ok? ==>
      r.project == Load(fs, s.projectFile, o).value && r.message == s.message
    ensures Load(fs, s.projectFile, o).Err? ==>
      r.project == DefaultProject && r.message == NewMessage(Load(fs, s.projectFile, o).message)
    ensures r.active == ListFrom(r.project.activeTasks) && r.completed == ListFrom(r.project.completedTasks)
    ensures r.(project := s.project, message := s.message, active := s.active, completed := s.completed) == s
  {
    var s1 := match Load(fs, s.projectFile, o)
      case Ok(p) => s.(project := p)
      case Err(m) => s.(message := NewMessage(m), project := DefaultProject);
    s1.(active := ListFrom(s1.project.activeTasks), completed := ListFrom(s1.project.completedTasks))
  }

  /** The end of a completed entry: write; on success close the popup, return to
      CommandMode and reload; on failure show the error and leave the popup finished. */
  function Committed(w: World, io: Io): (r: World)
    ensures r.fs == Write(w.fs, w.view.projectFile, w.view.project, io.write).fs
    ensures Write(w.fs, w.view.projectFile, w.view.project, io.write).result.Ok? ==>
      r.view == Reloaded(w.view.(input := w.view.input.(active := false), mode := CommandMode), r.fs, io.load)
    ensures Write(w.fs, w.view.projectFile, w.view.project, io.write).result.Err? ==>
      r.view == w.view.(message := NewMessage(Write(w.fs, w.view.projectFile, w.view.project, io.write).result.message))
  {
    var e := Write(w.fs, w.view.projectFile, w.view.project, io.write);
    match e.result
    case Ok(_) => World(Reloaded(w.view.(input := w.view.input.(active := false), mode := CommandMode), e.fs, io.load), e.fs)
    case Err(m) => World(w.view.(message := NewMessage(m)), e.fs)
  }

  /** A finished AddName entry (src/services/task_s.rs:313-333): the task (text,
      "Description") is appended to the project before the write, and stays there when the
      write fails. */
  function TaskAdded(w: World, io: Io): (r: World)
    ensures var added := AddTask(w.view.project, w.view.input.text, NewTaskDescription);
      r == Committed(w.(view := w.view.(project := added)), io)
  {
    var added := AddTask(w.view.project, w.view.input.text, "Description");
    Committed(w.(view := w.view.(project := added)), io)
  }

  /** The list `l` with the selected task's description replaced. */
  function Redescribed(l: ListState<Task>, i: nat, text: string): (r: ListState<Task>)
    requires i < |l.items|
    ensures r.selected == l.selected && |r.items| == |l.items|
    ensures r.items[i] == l.items[i].(description := text)
    ensures forall j :: 0 <= j < |l.items| && j != i ==> r.items[j] == l.items[j]
  {
    l.(items := l.items[i := l.items[i].(description := text)])
  }

  /** A finished EditDescription entry (src/services/task_s.rs:334-400): only the selected
      task of the focused list gets the text as its description, the project takes that
      list, and the project is written; with no selection a message says so and nothing is
      written. */
  function DescriptionEdited(w: World, io: Io): (r: World)
    requires !SelectionOutOfRange(Focused(w.view))
    ensures Focused(w.view).selected.None? ==> r == w.(view := w.view.(message := NewMessage(InvalidTaskMessage)))
    ensures Focused(w.view).selected.Some? && w.view.focusedOnActive ==>
      var l := Redescribed(w.view.active, w.view.active.selected.value, w.view.input.text);
      r == Committed(w.(view := w.view.(active := l, project := w.view.project.(activeTasks := l.items))), io)
    ensures Focused(w.view).selected.Some? && !w.view.focusedOnActive ==>
      var l := Redescribed(w.view.completed, w.view.completed.selected.value, w.view.input.text);
      r == Committed(w.(view := w.view.(completed := l, project := w.view.project.(completedTasks := l.items))), io)
  {
    var s := w.view;
    var text := s.input.text;
    if s.focusedOnActive then
      match s.active.selected
      case None => w.(view := s.(message := NewMessage("Selected task is invalid")))
      case Some(i) =>
        var l := Redescribed(s.active, i, text);
        Committed(w.(view := s.(active := l, project := s.project.(activeTasks := l.items))), io)
    else
      match s.completed.selected
      case None => w.(view := s.(message := NewMessage("Selected task is invalid")))
      case Some(i) =>
        var l := Redescribed(s.completed, i, text);
        Committed(w.(view := s.(completed := l, project := s.project.(completedTasks := l.items))), io)
  }

  /** The keys on which `handle_input_key` panics: indexing a list at a selection past
      its end, or `next` on a list with a selection but no items. */
  predicate Panics(s: TaskViewState, key: Key)
  {
    match s.mode
    case CommandMode =>
      || (key == Char('c') && s.focusedOnActive && SelectionOutOfRange(s.active))
      || (key == Char('u') && !s.focusedOnActive && SelectionOutOfRange(s.completed))
      || (key == Char('e') && SelectionOutOfRange(Focused(s)))
      || (key == Down && NextPanics(Focused(s)))
    case WriteMode =>
      var input := InputKey(s.input, key);
      && !(s.message.active && MessageKey(s.message, key).done)
      && input.active && input.finished && s.inputType == EditDescription
      && SelectionOutOfRange(Focused(s))
  }

  /** CommandMode keys (src/services/task_s.rs:257-297). */
  function CommandKey(w: World, key: Key, io: Io): (r: World)
    requires w.view.mode == CommandMode && !Panics(w.view, key)
    ensures key == Left ==> r == w.(view := w.view.(focusedOnActive := true))
    ensures key == Right ==> r == w.(view := w.view.(focusedOnActive := false))
    ensures key == Char('a') ==> r == w.(view := AddingTask(w.view))
    ensures key == Char('e') ==> r == w.(view := EditingDescription(w.view))
    ensures key == Char('c') && w.view.focusedOnActive ==>
      var m := MovedToCompleted(w, io.write);
      r == m.(view := Reloaded(m.view, m.fs, io.load))
    ensures key == Char('u') && !w.view.focusedOnActive ==>
      var m := MovedToActive(w, io.write);
      r == m.(view := Reloaded(m.view, m.fs, io.load))
    ensures key == Char('c') && !w.view.focusedOnActive ==> r == w
    ensures key == Char('u') && w.view.focusedOnActive ==> r == w
    ensures key == Up ==> Focused(r.view) == SelectPrevious(Focused(w.view))
    ensures key == Down ==> Focused(r.view) == SelectNext(Focused(w.view))
    ensures key == Up || key == Down ==>
      && r.fs == w.fs
      && r.view.(active := w.view.active, completed := w.view.completed) == w.view
      && (if w.view.focusedOnActive then r.view.completed == w.view.completed else r.view.active == w.view.active)
    ensures !(key in {Left, Right, Up, Down, Char('a'), Char('c'), Char('u'), Char('e')}) ==> r == w
  {
    var s := w.view;
    match key
    case Left => w.(view := s.(focusedOnActive := true))
    case Right => w.(view := s.(focusedOnActive := false))
    case Char(c) =>
      if c == 'a' then w.(view := AddingTask(s))
      else if c == 'c' then
        if s.focusedOnActive then
          var m := MovedToCompleted(w, io.write);
          m.(view := Reloaded(m.view, m.fs, io.load))
        else w
      else if c == 'u' then
        if !s.focusedOnActive then
          var m := MovedToActive(w, io.write);
          m.(view := Reloaded(m.view, m.fs, io.load))
        else w
      else if c == 'e' then w.(view := EditingDescription(s))
      else w
    case Up =>
      if s.focusedOnActive then w.(view := s.(active := SelectPrevious(s.active)))
      else w.(view := s.(completed := SelectPrevious(s.completed)))
    case Down =>
      if s.focusedOnActive then w.(view := s.(active := SelectNext(s.active)))
      else w.(view := s.(completed := SelectNext(s.completed)))
    case _ => w
  }

  /** WriteMode keys (src/services/task_s.rs:298-405). An active message popup sees the
      key first; a key that completes it closes it and goes no further. Otherwise the key
      also goes to the input popup: closing that one returns to CommandMode, finishing it
      adds or edits a task. */
  function WriteKey(w: World, key: Key, io: Io): (r: World)
    requires w.view.mode == WriteMode && !Panics(w.view, key)
    ensures w.view.message.active && MessageKey(w.view.message, key).done ==>
      r == w.(view := w.view.(message := w.view.message.(done := true, active := false)))
    ensures !(w.view.message.active && MessageKey(w.view.message, key).done) && !InputKey(w.view.input, key).active ==>
      r.fs == w.fs && r.view.mode == CommandMode && r.view.input == InputKey(w.view.input, key)
    ensures !(w.view.message.active && MessageKey(w.view.message, key).done) && !InputKey(w.view.input, key).finished ==>
      r.fs == w.fs && r.view.project == w.view.project
    ensures (!(w.view.message.active && MessageKey(w.view.message, key).done)
             && InputKey(w.view.input, key).active && !InputKey(w.view.input, key).finished) ==>
      r == w.(view := w.view.(message := if w.view.message.active then MessageKey(w.view.message, key) else w.view.message,
                              input := InputKey(w.view.input, key)))
    ensures (!(w.view.message.active && MessageKey(w.view.message, key).done)
             && InputKey(w.view.input, key).active && InputKey(w.view.input, key).finished) ==>
      var s1 := w.view.(message := if w.view.message.active then MessageKey(w.view.message, key) else w.view.message,
                        input := InputKey(w.view.input, key));
      r == (if s1.inputType == AddName then TaskAdded(w.(view := s1), io) else DescriptionEdited(w.(view := s1), io))
  {
    var s := w.view;
    if s.message.active && MessageKey(s.message, key).done then
      w.(view := s.(message := MessageKey(s.message, key).(active := false)))
    else
      var message := if s.message.active then MessageKey(s.message, key) else s.message;
      var s1 := s.(message := message, input := InputKey(s.input, key));
      if !s1.input.active then w.(view := s1.(mode := CommandMode))
      else if !s1.input.finished then w.(view := s1)
      else match s1.inputType
        case AddName => TaskAdded(w.(view := s1), io)
        case EditDescription => DescriptionEdited(w.(view := s1), io)
  }

  /** `handle_input_key`. */
  function AfterKey(w: World, key: Key, io: Io): (r: World)
    requires !Panics(w.view, key)
    ensures r.view.projectFile == w.view.projectFile
    ensures forall p :: p != w.view.projectFile ==>
      (p in r.fs.nodes <==> p in w.fs.nodes) && (p in w.fs.nodes ==> r.fs.nodes[p] == w.fs.nodes[p])
    ensures w.view.mode == CommandMode ==> r == CommandKey(w, key, io)
    ensures w.view.mode == WriteMode ==> r == WriteKey(w, key, io)
  {
    match w.view.mode
    case CommandMode => CommandKey(w, key, io)
    case WriteMode => WriteKey(w, key, io)
  }

  /** `get_controls_description` (src/services/task_s.rs:410-418). */
  function Controls(s: TaskViewState): (r: string)
    ensures s.message.active ==> r == MessageControls
    ensures !s.message.active && s.input.active ==> r == Popups.InputControls
    ensures !s.message.active && !s.input.active ==> r == TaskControls
  {
    if s.message.active then MessageControls
    else if s.input.active then Popups.InputControls
    else TaskControls
  }

  // ---------------------------------------------------------------------------
  // Properties across keys
  // ---------------------------------------------------------------------------

  /** Both lists select something exactly when they hold something, and an index of theirs. */
  predicate Inv(s: TaskViewState)
  {
    Consistent(s.active) && Consistent(s.completed)
  }

  lemma InitialKeepsInv(fs: Fs, workingDir: string, projectName: string, o: Outcome)
    ensures Inv(Initial(fs, workingDir, projectName, o))
  {
  }

  /** A finished entry keeps the lists consistent: a failed write leaves them as they
      were, a successful one rebuilds them from the reloaded project. */
  lemma CommittedKeepsInv(w: World, io: Io)
    requires Inv(w.view)
    ensures Inv(Committed(w, io).view)
  {
  }

  lemma CommandKeyKeepsInv(w: World, key: Key, io: Io)
    requires Inv(w.view) && w.view.mode == CommandMode
    ensures !Panics(w.view, key)
    ensures !(key == Up && |Focused(w.view).items| == 0) ==> Inv(CommandKey(w, key, io).view)
  {
  }

  /** A finished AddName entry appends to the project only and commits it. */
  lemma TaskAddedKeepsInv(w: World, io: Io)
    requires Inv(w.view)
    ensures Inv(TaskAdded(w, io).view)
  {
    var added := AddTask(w.view.project, w.view.input.text, NewTaskDescription);
    CommittedKeepsInv(w.(view := w.view.(project := added)), io);
  }

  /** A finished EditDescription entry keeps the focused list's length and selection, or
      only opens a message, before the commit. */
  lemma DescriptionEditedKeepsInv(w: World, io: Io)
    requires Inv(w.view) && !SelectionOutOfRange(Focused(w.view))
    ensures Inv(DescriptionEdited(w, io).view)
  {
    var s := w.view;
    if Focused(s).selected.Some? {
      if s.focusedOnActive {
        var l := Redescribed(s.active, s.active.selected.value, s.input.text);
        CommittedKeepsInv(w.(view := s.(active := l, project := s.project.(activeTasks := l.items))), io);
      } else {
        var l := Redescribed(s.completed, s.completed.selected.value, s.input.text);
        CommittedKeepsInv(w.(view := s.(completed := l, project := s.project.(completedTasks := l.items))), io);
      }
    }
  }

  /** With consistent lists a finished description entry always has its selection. */
  lemma WriteKeyNeverPanics(s: TaskViewState, key: Key)
    requires Inv(s) && s.mode == WriteMode
    ensures !Panics(s, key)
  {
    assert !SelectionOutOfRange(Focused(s));
  }

  lemma WriteKeyKeepsInv(w: World, key: Key, io: Io)
    requires Inv(w.view) && w.view.mode == WriteMode
    ensures !Panics(w.view, key)
    ensures Inv(WriteKey(w, key, io).view)
  {
    WriteKeyNeverPanics(w.view, key);
    var s := w.view;
    var message := if s.message.active then MessageKey(s.message, key) else s.message;
    var s1 := s.(message := message, input := InputKey(s.input, key));
    if !(s.message.active && MessageKey(s.message, key).done) && s1.input.active && s1.input.finished {
      match s1.inputType
      case AddName => TaskAddedKeepsInv(w.(view := s1), io);
      case EditDescription => DescriptionEditedKeepsInv(w.(view := s1), io);
    }
  }

  /** From consistent lists no key panics, and every key but Up on an empty focused list
      leaves the lists consistent: each change either rebuilds them from the project
      (the reload) or keeps their lengths and selections. */
  lemma KeyKeepsInv(w: World, key: Key, io: Io)
    requires Inv(w.view)
    ensures !Panics(w.view, key)
    ensures !(w.view.mode == CommandMode && key == Up && |Focused(w.view).items| == 0) ==>
      Inv(AfterKey(w, key, io).view)
  {
    match w.view.mode
    case CommandMode => CommandKeyKeepsInv(w, key, io);
    case WriteMode => WriteKeyKeepsInv(w, key, io);
  }

  /** Up on an empty focused list selects index 0 of nothing (`previous` ignores the
      length), after which 'e', and 'c' on the active list, index out of bounds and Down
      underflows. */
  lemma UpOnEmptyStrandsSelection(w: World, io: Io)
    requires Inv(w.view) && w.view.mode == CommandMode && w.view.focusedOnActive
    requires w.view.active.items == []
    ensures var r := AfterKey(w, Up, io);
      && !Inv(r.view)
      && Panics(r.view, Char('c')) && Panics(r.view, Char('e')) && Panics(r.view, Down)
  {
  }

  /** Completing a task, when both the write and the reload succeed, shows exactly the
      moved lists again, now with the first task of each selected. */
  lemma CompleteRoundTrip(w: World)
    requires w.view.mode == CommandMode && w.view.focusedOnActive
    requires w.view.active.selected.Some? && !SelectionOutOfRange(w.view.active)
    requires !(w.view.projectFile in w.fs.nodes && w.fs.nodes[w.view.projectFile].Directory?)
    ensures var i := w.view.active.selected.value;
      var r := AfterKey(w, Char('c'), Io(Succeed, Succeed));
      && r.view.active == ListFrom(RemoveAt(w.view.active.items, i))
      && r.view.completed == ListFrom(w.view.completed.items + [w.view.active.items[i]])
      && r.view.message == w.view.message
  {
    var m := MovedToCompleted(w, Succeed);
    LoadAfterWrite(w.fs, w.view.projectFile, m.view.project);
  }

  /** When the write of a completion fails but the reload works, the lists show the file's
      old content again: the move is undone on screen, and a message reports the error. */
  lemma FailedCompleteShowsStoredProject(w: World, reason: string)
    requires w.view.mode == CommandMode && w.view.focusedOnActive
    requires w.view.active.selected.Some? && !SelectionOutOfRange(w.view.active)
    requires Load(w.fs, w.view.projectFile, Succeed).Ok?
    ensures var r := AfterKey(w, Char('c'), Io(Fail(reason), Succeed));
      && r.fs == w.fs
      && r.view.project == Load(w.fs, w.view.projectFile, Succeed).value
      && r.view.active == ListFrom(r.view.project.activeTasks)
      && r.view.message == NewMessage(reason)
  {
  }

  /** After an AddName write has failed, the entry stays finished: the next key that does
      not acknowledge the message reaches the input popup again and appends the task a
      second time. */
  lemma FailedAddRepeats(w: World, io: Io, c: char, reason: string)
    requires w.view.mode == WriteMode && w.view.inputType == AddName
    requires w.view.input.active && InputKey(w.view.input, Enter).finished
    requires !(w.view.message.active && MessageKey(w.view.message, Enter).done)
    requires io.write == Fail(reason)
    ensures var first := AfterKey(w, Enter, io);
      && first.view.mode == WriteMode && first.view.input.finished && first.view.message.active
      && |first.view.project.activeTasks| == |w.view.project.activeTasks| + 1
      && var second := AfterKey(first, Char(c), io);
         |second.view.project.activeTasks| == |w.view.project.activeTasks| + 2
  {
  }

  /** Esc in an entry returns to CommandMode and writes nothing. */
  lemma EscapeWritesNothing(w: World, io: Io)
    requires w.view.mode == WriteMode && !(w.view.message.active && MessageKey(w.view.message, Esc).done)
    ensures AfterKey(w, Esc, io).fs == w.fs && AfterKey(w, Esc, io).view.mode == CommandMode
    ensures AfterKey(w, Esc, io).view.project == w.view.project
  {
  }

  // ---------------------------------------------------------------------------
  // TaskService
  // ---------------------------------------------------------------------------

  /** `TaskService`. The lists and popups are owned by value in the source, so here they
      are fields holding their states, changed by the transitions the popup and list classes
      are proved against. */
  class TaskService {
    var workingPath: Path
    var selectedProject: Project
    var activeTasksList: ListState<Task>
    var completedTasksList: ListState<Task>
    var focusedOnActive: bool
    var inputMode: InputMode
    var inputPopup: InputState
    var inputPopupType: TaskInputChoice
    var messagePopup: MessageState

    function State(): TaskViewState
      reads this
    {
      TaskViewState(workingPath, selectedProject, activeTasksList, completedTasksList,
        focusedOnActive, inputMode, inputPopup, inputPopupType, messagePopup)
    }

    constructor (workingDir: string, projectName: string, disk: Disk, o: Outcome)
      ensures State() == Initial(disk.fs, workingDir, projectName, o)
    {
      var path := ProjectPath(workingDir, projectName);
      var project := match Load(disk.fs, path, o) case Ok(p) => p case Err(_) => DefaultProject;
      workingPath := path;
      selectedProject := project;
      activeTasksList := ListFrom(project.activeTasks);
      completedTasksList := ListFrom(project.completedTasks);
      focusedOnActive := true;
      inputMode := CommandMode;
      inputPopup := DefaultInput;
      inputPopupType := AddName;
      messagePopup := DefaultMessage;
    }

    /** `TaskService::default()`, as the application builds it before any project is
        chosen; `InputMode` declares no default, so CommandMode is taken. */
    constructor Default()
      ensures State() == TaskViewState(Path("", ""), DefaultProject, ListFrom([]), ListFrom([]),
        false, CommandMode, DefaultInput, AddName, DefaultMessage)
    {
      workingPath := Path("", "");
      selectedProject := DefaultProject;
      activeTasksList := ListFrom([]);
      completedTasksList := ListFrom([]);
      focusedOnActive := false;
      inputMode := CommandMode;
      inputPopup := DefaultInput;
      inputPopupType := AddName;
      messagePopup := DefaultMessage;
    }

    method AddTaskCommand()
      modifies this
      ensures State() == AddingTask(old(State()))
    {
      inputPopupType := AddName;
      inputMode := WriteMode;
      inputPopup := NewInput("Enter Task Name");
    }

    method EditTaskDescription()
      requires !SelectionOutOfRange(Focused(State()))
      modifies this
      ensures State() == EditingDescription(old(State()))
    {
      var inputString: string;
      if focusedOnActive {
        match activeTasksList.selected {
          case Some(val) => inputString := activeTasksList.items[val].description;
          case None => inputString := "";
        }
      } else {
        match completedTasksList.selected {
          case Some(val) => inputString := completedTasksList.items[val].description;
          case None => inputString := "";
        }
      }
      inputPopupType := EditDescription;
      inputMode := WriteMode;
      inputPopup := NewInput("Edit tasks description");
      inputPopup := Popups.WithText(inputPopup, inputString);
    }

    method CreateMessagePopup(message: string)
      modifies this
      ensures State() == old(State()).(message := NewMessage(message))
    {
      messagePopup := NewMessage(message);
    }

    /** The write after a move, turning a failure into a message popup. */
    method Save(disk: Disk, o: Outcome)
      requires disk.Valid()
      modifies this, disk
      ensures disk.Valid()
      ensures World(State(), disk.fs) == Saved(old(World(State(), disk.fs)), o)
    {
      var r := disk.WriteProject(workingPath, selectedProject, o);
      match r {
        case Ok(_) =>
        case Err(e) => CreateMessagePopup(e);
      }
    }

    method MarkSelectedTaskAsCompleted(disk: Disk, o: Outcome)
      requires disk.Valid() && !SelectionOutOfRange(activeTasksList)
      modifies this, disk
      ensures disk.Valid()
      ensures World(State(), disk.fs) == MovedToCompleted(old(World(State(), disk.fs)), o)
    {
      match activeTasksList.selected {
        case Some(val) =>
          completedTasksList := completedTasksList.(items := completedTasksList.items + [activeTasksList.items[val]]);
          activeTasksList := activeTasksList.(items := RemoveAt(activeTasksList.items, val));
          selectedProject := selectedProject.(activeTasks := activeTasksList.items);
          selectedProject := selectedProject.(completedTasks := completedTasksList.items);
          Save(disk, o);
        case None =>
      }
    }

    method MarkSelectedTaskAsUncompleted(disk: Disk, o: Outcome)
      requires disk.Valid() && !SelectionOutOfRange(completedTasksList)
      modifies this, disk
      ensures disk.Valid()
      ensures World(State(), disk.fs) == MovedToActive(old(World(State(), disk.fs)), o)
    {
      match completedTasksList.selected {
        case Some(val) =>
          activeTasksList := activeTasksList.(items := activeTasksList.items + [completedTasksList.items[val]]);
          completedTasksList := completedTasksList.(items := RemoveAt(completedTasksList.items, val));
          selectedProject := selectedProject.(completedTasks := completedTasksList.items);
          selectedProject := selectedProject.(activeTasks := activeTasksList.items);
          Save(disk, o);
        case None =>
      }
    }

    method UpdateProject(disk: Disk, o: Outcome)
      modifies this
      ensures State() == Reloaded(old(State()), disk.fs, o)
    {
      var loaded := Load(disk.fs, workingPath, o);
      match loaded {
        case Ok(p) => selectedProject := p;
        case Err(e) =>
          CreateMessagePopup(e);
          selectedProject := DefaultProject;
      }
      activeTasksList := ListFrom(selectedProject.activeTasks);
      completedTasksList := ListFrom(selectedProject.completedTasks);
    }

    /** The end of a finished entry: write, then close and reload, or report. */
    method Commit(disk: Disk, io: Io)
      requires disk.Valid()
      modifies this, disk
      ensures disk.Valid()
      ensures World(State(), disk.fs) == Committed(old(World(State(), disk.fs)), io)
    {
      var r := disk.WriteProject(workingPath, selectedProject, io.write);
      match r {
        case Ok(_) =>
          inputPopup := inputPopup.(active := false);
          inputMode := CommandMode;
          UpdateProject(disk, io.load);
        case Err(e) =>
          CreateMessagePopup(e);
      }
    }

    method SetWorkingDirectory(path: Path)
      modifies this
      ensures State() == old(State()).(projectFile := path)
    {
      workingPath := path;
    }

    method HandleInputKey(key: Key, disk: Disk, io: Io)
      requires disk.Valid() && !Panics(State(), key)
      modifies this, disk
      ensures disk.Valid()
      ensures World(State(), disk.fs) == AfterKey(old(World(State(), disk.fs)), key, io)
    {
      match inputMode {
        case CommandMode => HandleCommandKey(key, disk, io);
        case WriteMode => HandleWriteKey(key, disk, io);
      }
    }

    method HandleCommandKey(key: Key, disk: Disk, io: Io)
      requires disk.Valid() && inputMode == CommandMode && !Panics(State(), key)
      modifies this, disk
      ensures disk.Valid()
      ensures World(State(), disk.fs) == CommandKey(old(World(State(), disk.fs)), key, io)
    {
      match key {
        case Left => focusedOnActive := true;
        case Right => focusedOnActive := false;
        case Char(c) =>
          if c == 'a' {
            AddTaskCommand();
          } else if c == 'c' {
            if focusedOnActive {
              MarkSelectedTaskAsCompleted(disk, io.write);
              UpdateProject(disk, io.load);
            }
          } else if c == 'u' {
            if !focusedOnActive {
              MarkSelectedTaskAsUncompleted(disk, io.write);
              UpdateProject(disk, io.load);
            }
          } else if c == 'e' {
            EditTaskDescription();
          }
        case Up =>
          if focusedOnActive {
            activeTasksList := SelectPrevious(activeTasksList);
          } else {
            completedTasksList := SelectPrevious(completedTasksList);
          }
        case Down =>
          if focusedOnActive {
            activeTasksList := SelectNext(activeTasksList);
          } else {
            completedTasksList := SelectNext(completedTasksList);
          }
        case _ =>
      }
    }

    method HandleWriteKey(key: Key, disk: Disk, io: Io)
      requires disk.Valid() && inputMode == WriteMode && !Panics(State(), key)
      modifies this, disk
      ensures disk.Valid()
      ensures World(State(), disk.fs) == WriteKey(old(World(State(), disk.fs)), key, io)
    {
      if messagePopup.active {
        messagePopup := MessageKey(messagePopup, key);
        if messagePopup.done {
          messagePopup := messagePopup.(active := false);
          return;
        }
      }
      inputPopup := InputKey(inputPopup, key);
      if !inputPopup.active {
        inputMode := CommandMode;
        return;
      }
      if inputPopup.finished {
        match inputPopupType {
          case AddName =>
            selectedProject := AddTask(selectedProject, inputPopup.text, "Description");
            Commit(disk, io);
          case EditDescription =>
            EditSelectedDescription(disk, io);
        }
      }
    }

    /** The EditDescription arm of a finished entry. */
    method EditSelectedDescription(disk: Disk, io: Io)
      requires disk.Valid() && !SelectionOutOfRange(Focused(State()))
      modifies this, disk
      ensures disk.Valid()
      ensures World(State(), disk.fs) == DescriptionEdited(old(World(State(), disk.fs)), io)
    {
      var inputtedString := inputPopup.text;
      if focusedOnActive {
        match activeTasksList.selected {
          case Some(val) =>
            activeTasksList := activeTasksList.(items := activeTasksList.items[val := activeTasksList.items[val].(description := inputtedString)]);
            selectedProject := selectedProject.(activeTasks := activeTasksList.items);
            Commit(disk, io);
          case None =>
            CreateMessagePopup("Selected task is invalid");
        }
      } else {
        match completedTasksList.selected {
          case Some(val) =>
            completedTasksList := completedTasksList.(items := completedTasksList.items[val := completedTasksList.items[val].(description := inputtedString)]);
            selectedProject := selectedProject.(completedTasks := completedTasksList.items);
            Commit(disk, io);
          case None =>
            CreateMessagePopup("Selected task is invalid");
        }
      }
    }

    function GetControlsDescription(): (r: string)
      reads this
      ensures r == Controls(State())
    {
      if messagePopup.active then MessageControls
      else if inputPopup.active then Popups.InputControls
      else "Navigate with arrows | C: Mark as completed | U: Mark as incomplete | A: Add task | E: Edit task description | Tab: Back To Projects"
    }

    /** `get_input_mode`; its third arm names a variant `InputMode` does not have. */
    function GetInputMode(): (m: InputMode)
      reads this
      ensures m == inputMode
    {
      match inputMode
      case CommandMode => CommandMode
      case WriteMode => WriteMode
    }
  }
}
