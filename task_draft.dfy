/** The draft task view (src/services/task_service.rs): the same two lists and focus as the
    live task view, but a move writes the project and ignores the result, nothing is
    reloaded, and a finished entry is not acted on yet. */
module TaskDraft {
  import opened Wrappers
  import opened Ui
  import opened TaskModel
  import opened ProjectModel
  import opened Storage
  import Popups

  datatype TaskInputChoice = AddName | EditDescription

  const AddTaskTitle := "Enter Task Name"
  /** The title as this draft spells it. */
  const EditDescriptionTitle := "Edit taks description"

  /** The fields of the draft `TaskService` (src/services/task_service.rs:22-31). */
  datatype DraftState = DraftState(
    projectFile: Path,
    project: Project,
    active: ListState<Task>,
    completed: ListState<Task>,
    focusedOnActive: bool,
    mode: InputMode,
    input: InputState,
    inputType: TaskInputChoice)

  datatype World = World(view: DraftState, fs: Fs)

  function Focused(s: DraftState): ListState<Task>
  {
    if s.focusedOnActive then s.active else s.completed
  }

  /** `add_task_command` (src/services/task_service.rs:34-38). */
  function AddingTask(s: DraftState): (r: DraftState)
    ensures r.mode == WriteMode && r.inputType == AddName && r.input == NewInput(AddTaskTitle)
    ensures r.(mode := s.mode, inputType := s.inputType, input := s.input) == s
  {
    s.(inputType := AddName, mode := WriteMode, input := NewInput("Enter Task Name"))
  }

  /** `edit_task_description` (src/services/task_service.rs:40-55). */
  function EditingDescription(s: DraftState): (r: DraftState)
    requires !SelectionOutOfRange(Focused(s))
    ensures r.mode == WriteMode && r.inputType == EditDescription
    ensures r.input == Popups.WithText(NewInput(EditDescriptionTitle), r.input.text)
    ensures Focused(s).selected.None? ==> r.input.text == ""
    ensures Focused(s).selected.Some? ==> r.input.text == Focused(s).items[Focused(s).selected.value].description
    ensures r.(mode := s.mode, inputType := s.inputType, input := s.input) == s
  {
    var l := Focused(s);
    var text := match l.selected case Some(i) => l.items[i].description case None => "";
    s.(inputType := EditDescription, mode := WriteMode,
       input := Popups.WithText(NewInput("Edit taks description"), text))
  }

  /** `mark_selected_task_as_completed` (src/services/task_service.rs:57-71). The selection
      is left where it was, even past the end of the shortened list. */
  function MovedToCompleted(w: World, o: Outcome): (r: World)
    requires !SelectionOutOfRange(w.view.active)
    ensures w.view.active.selected.None? ==> r == w
    ensures w.view.active.selected.Some? ==>
      var i := w.view.active.selected.value;
      && r.view.completed.items == w.view.completed.items + [w.view.active.items[i]]
      && r.view.active.items == RemoveAt(w.view.active.items, i)
      && r.view.active.selected == w.view.active.selected
      && r.view.completed.selected == w.view.completed.selected
      && r.view.project == w.view.project.(activeTasks := r.view.active.items, completedTasks := r.view.completed.items)
      && r.view.(active := w.view.active, completed := w.view.completed, project := w.view.project) == w.view
      && r.fs == Write(w.fs, w.view.projectFile, r.view.project, o).fs
    ensures multiset(r.view.active.items) + multiset(r.view.completed.items)
         == multiset(w.view.active.items) + multiset(w.view.completed.items)
  {
    var s := w.view;
    match s.active.selected
    case None => w
    case Some(i) =>
      var completed := s.completed.items + [s.active.items[i]];
      var active := RemoveAt(s.active.items, i);
      var moved := s.(active := s.active.(items := active), completed := s.completed.(items := completed),
                      project := s.project.(activeTasks := active, completedTasks := completed));
      World(moved, Write(w.fs, s.projectFile, moved.project, o).fs)
  }

  /** `mark_selected_task_as_uncompleted` (src/services/task_service.rs:73-87). */
  function MovedToActive(w: World, o: Outcome): (r: World)
    requires !SelectionOutOfRange(w.view.completed)
    ensures w.view.completed.selected.None? ==> r == w
    ensures w.view.completed.selected.Some? ==>
      var i := w.view.completed.selected.value;
      && r.view.active.items == w.view.active.items + [w.view.completed.items[i]]
      && r.view.completed.items == RemoveAt(w.view.completed.items, i)
      && r.view.active.selected == w.view.active.selected
      && r.view.completed.selected == w.view.completed.selected
      && r.view.project == w.view.project.(activeTasks := r.view.active.items, completedTasks := r.view.completed.items)
      && r.view.(active := w.view.active, completed := w.view.completed, project := w.view.project) == w.view
      && r.fs == Write(w.fs, w.view.projectFile, r.view.project, o).fs
    ensures multiset(r.view.active.items) + multiset(r.view.completed.items)
         == multiset(w.view.active.items) + multiset(w.view.completed.items)
  {
    var s := w.view;
    match s.completed.selected
    case None => w
    case Some(i) =>
      var active := s.active.items + [s.completed.items[i]];
      var completed := RemoveAt(s.completed.items, i);
      var moved := s.(active := s.active.(items := active), completed := s.completed.(items := completed),
                      project := s.project.(activeTasks := active, completedTasks := completed));
      World(moved, Write(w.fs, s.projectFile, moved.project, o).fs)
  }

  /** The keys on which the draft's `handle_input_key` panics. */
  predicate Panics(s: DraftState, key: Key)
  {
    && s.mode == CommandMode
    && (|| (key == Char('c') && s.focusedOnActive && SelectionOutOfRange(s.active))
        || (key == Char('u') && !s.focusedOnActive && SelectionOutOfRange(s.completed))
        || (key == Down && NextPanics(Focused(s))))
  }

  /** `handle_input_key` (src/services/task_service.rs:165-232). There is no 'e' key yet;
      in WriteMode every key goes to the input popup, closing it returns to CommandMode,
      and a finished entry changes nothing else. */
  function AfterKey(w: World, key: Key, o: Outcome): (r: World)
    requires !Panics(w.view, key)
    ensures w.view.mode == CommandMode && key in {Left, Right} ==>
      r == w.(view := w.view.(focusedOnActive := key == Left))
    ensures w.view.mode == CommandMode && (key == Up || key == Down) ==>
      && r.fs == w.fs
      && r.view.(active := w.view.active, completed := w.view.completed) == w.view
      && (if w.view.focusedOnActive then r.view.completed == w.view.completed else r.view.active == w.view.active)
    ensures w.view.mode == CommandMode && key == Up ==> Focused(r.view) == SelectPrevious(Focused(w.view))
    ensures w.view.mode == CommandMode && key == Down ==> Focused(r.view) == SelectNext(Focused(w.view))
    ensures w.view.mode == CommandMode && key == Char('a') ==> r == w.(view := AddingTask(w.view))
    ensures w.view.mode == CommandMode && key == Char('c') && w.view.focusedOnActive ==> r == MovedToCompleted(w, o)
    ensures w.view.mode == CommandMode && key == Char('u') && !w.view.focusedOnActive ==> r == MovedToActive(w, o)
    ensures w.view.mode == CommandMode && key == Char('c') && !w.view.focusedOnActive ==> r == w
    ensures w.view.mode == CommandMode && key == Char('u') && w.view.focusedOnActive ==> r == w
    ensures w.view.mode == CommandMode && !(key in {Left, Right, Up, Down, Char('a'), Char('c'), Char('u')}) ==> r == w
    ensures w.view.mode == WriteMode ==> r.fs == w.fs && r.view.input == InputKey(w.view.input, key)
    ensures w.view.mode == WriteMode ==>
      r.view == w.view.(input := r.view.input, mode := if r.view.input.active then WriteMode else CommandMode)
  {
    var s := w.view;
    match s.mode
    case CommandMode =>
      (match key
       case Left => w.(view := s.(focusedOnActive := true))
       case Right => w.(view := s.(focusedOnActive := false))
       case Char(c) =>
         if c == 'a' then w.(view := AddingTask(s))
         else if c == 'c' then (if s.focusedOnActive then MovedToCompleted(w, o) else w)
         else if c == 'u' then (if !s.focusedOnActive then MovedToActive(w, o) else w)
         else w
       case Up =>
         if s.focusedOnActive then w.(view := s.(active := SelectPrevious(s.active)))
         else w.(view := s.(completed := SelectPrevious(s.completed)))
       case Down =>
         if s.focusedOnActive then w.(view := s.(active := SelectNext(s.active)))
         else w.(view := s.(completed := SelectNext(s.completed)))
       case _ => w)
    case WriteMode =>
      var input := InputKey(s.input, key);
      if !input.active then w.(view := s.(input := input, mode := CommandMode))
      else w.(view := s.(input := input))
  }

  /** Without a reload, completing the only active task leaves the selection past the end
      of the now empty list: the next 'c' would index out of bounds and the next Down
      would underflow. */
  lemma CompletingLastTaskStrandsSelection(w: World, o: Outcome)
    requires w.view.mode == CommandMode && w.view.focusedOnActive
    requires |w.view.active.items| == 1 && w.view.active.selected == Some(0)
    ensures var r := AfterKey(w, Char('c'), o);
      && r.view.active.items == [] && r.view.active.selected == Some(0)
      && Panics(r.view, Char('c')) && Panics(r.view, Down)
  {
  }

  /** Completing a task, moving the focus and uncompleting one loses no task: the two
      lists together hold the same multiset of tasks, and the second move cannot panic
      because the completed list only grew. */
  lemma {:induction false} MovesKeepTasks(w: World, o1: Outcome, o2: Outcome)
    requires w.view.mode == CommandMode && w.view.focusedOnActive
    requires w.view.active.selected.Some? && !SelectionOutOfRange(w.view.active)
    requires w.view.completed.selected.Some? && !SelectionOutOfRange(w.view.completed)
    ensures var r2 := AfterKey(AfterKey(w, Char('c'), o1), Right, o1);
      && !Panics(r2.view, Char('u'))
      && var r3 := AfterKey(r2, Char('u'), o2);
         multiset(r3.view.active.items) + multiset(r3.view.completed.items)
           == multiset(w.view.active.items) + multiset(w.view.completed.items)
  {
    var r1 := AfterKey(w, Char('c'), o1);
    assert r1 == MovedToCompleted(w, o1);
    var r2 := AfterKey(r1, Right, o1);
    assert !Panics(r2.view, Char('u'));
    var r3 := AfterKey(r2, Char('u'), o2);
    assert r3 == MovedToActive(r2, o2);
  }

  /** The draft `TaskService`; it has no constructor in the source. */
  class DraftTaskService {
    var workingPath: Path
    var selectedProject: Project
    var activeTasksList: ListState<Task>
    var completedTasksList: ListState<Task>
    var focusedOnActive: bool
    var inputMode: InputMode
    var inputPopup: InputState
    var inputPopupType: TaskInputChoice

    function State(): DraftState
      reads this
    {
      DraftState(workingPath, selectedProject, activeTasksList, completedTasksList,
        focusedOnActive, inputMode, inputPopup, inputPopupType)
    }

    method AddTaskCommand()
      modifies this
      ensures State() == AddingTask(old(State()))
    {
      inputPopupType := AddName;
      inputMode := WriteMode;
      inputPopup := NewInput("Enter Task Name");
    }

    method EditTaskDescription()
      requires !SelectionOutOfRange(Focused(State()))
      modifies this
      ensures State() == EditingDescription(old(State()))
    {
      var inputString: string;
      if focusedOnActive {
        match activeTasksList.selected {
          case Some(val) => inputString := activeTasksList.items[val].description;
          case None => inputString := "";
        }
      } else {
        match completedTasksList.selected {
          case Some(val) => inputString := completedTasksList.items[val].description;
          case None => inputString := "";
        }
      }
      inputPopupType := EditDescription;
      inputMode := WriteMode;
      inputPopup := NewInput("Edit taks description");
      inputPopup := Popups.WithText(inputPopup, inputString);
    }

    method MarkSelectedTaskAsCompleted(disk: Disk, o: Outcome)
      requires disk.Valid() && !SelectionOutOfRange(activeTasksList)
      modifies this, disk
      ensures disk.Valid()
      ensures World(State(), disk.fs) == MovedToCompleted(old(World(State(), disk.fs)), o)
    {
      match activeTasksList.selected {
        case Some(val) =>
          completedTasksList := completedTasksList.(items := completedTasksList.items + [activeTasksList.items[val]]);
          activeTasksList := activeTasksList.(items := RemoveAt(activeTasksList.items, val));
          selectedProject := selectedProject.(activeTasks := activeTasksList.items);
          selectedProject := selectedProject.(completedTasks := completedTasksList.items);
          var _ := disk.WriteProject(workingPath, selectedProject, o);
        case None =>
      }
    }

    method MarkSelectedTaskAsUncompleted(disk: Disk, o: Outcome)
      requires disk.Valid() && !SelectionOutOfRange(completedTasksList)
      modifies this, disk
      ensures disk.Valid()
      ensures World(State(), disk.fs) == MovedToActive(old(World(State(), disk.fs)), o)
    {
      match completedTasksList.selected {
        case Some(val) =>
          activeTasksList := activeTasksList.(items := activeTasksList.items + [completedTasksList.items[val]]);
          completedTasksList := completedTasksList.(items := RemoveAt(completedTasksList.items, val));
          selectedProject := selectedProject.(completedTasks := completedTasksList.items);
          selectedProject := selectedProject.(activeTasks := activeTasksList.items);
          var _ := disk.WriteProject(workingPath, selectedProject, o);
        case None =>
      }
    }

    method SetWorkingDirectory(path: Path)
      modifies this
      ensures State() == old(State()).(projectFile := path)
    {
      workingPath := path;
    }

    method HandleInputKey(key: Key, disk: Disk, o: Outcome)
      requires disk.Valid() && !Panics(State(), key)
      modifies this, disk
      ensures disk.Valid()
      ensures World(State(), disk.fs) == AfterKey(old(World(State(), disk.fs)), key, o)
    {
      match inputMode {
        case CommandMode =>
          match key {
            case Left => focusedOnActive := true;
            case Right => focusedOnActive := false;
            case Char(c) =>
              if c == 'a' {
                AddTaskCommand();
              } else if c == 'c' {
                if focusedOnActive {
                  MarkSelectedTaskAsCompleted(disk, o);
                }
              } else if c == 'u' {
                if !focusedOnActive {
                  MarkSelectedTaskAsUncompleted(disk, o);
                }
              }
            case Up =>
              if focusedOnActive {
                activeTasksList := SelectPrevious(activeTasksList);
              } else {
                completedTasksList := SelectPrevious(completedTasksList);
              }
            case Down =>
              if focusedOnActive {
                activeTasksList := SelectNext(activeTasksList);
              } else {
                completedTasksList := SelectNext(completedTasksList);
              }
            case _ =>
          }
        case WriteMode =>
          inputPopup := InputKey(inputPopup, key);
          if !inputPopup.active {
            inputMode := CommandMode;
            return;
          }
      }
    }
  }
}
