/** The oldest project view (src/services.rs). It is built from a list of projects that is
    given to it, can add and delete projects but not edit them, shows the descriptions of
    the selected project's tasks, serialises a new project itself before writing it, and
    ignores the outcome of a delete. */
module ProjectViewOldest {
  import opened Wrappers
  import opened Ui
  import opened TaskModel
  import opened ProjectModel
  import opened Storage
  import opened ProjectListing
  import Utils

  const ProjectControls := "a - Add project     d - Delete project     e - Edit Project Description     n - Edit Project name"
  const ErrorPrefix := "Error: "

  /** The fields of `ProjectManagementService` (src/services.rs:24-34). */
  datatype OldestState = OldestState(
    projects: ListState<Project>,
    shownActive: seq<string>,
    shownCompleted: seq<string>,
    input: InputState,
    mode: InputMode,
    workPath: string,
    message: MessageState,
    delete: ChoiceState)

  datatype World = World(view: OldestState, fs: Fs)

  /** The environment's answers: serialising the new project, writing it, removing a file. */
  datatype Io = Io(serialise: Outcome, write: Outcome, remove: Outcome)

  /** The task descriptions this view shows for the selected project. */
  function TaskDescriptions(tasks: seq<Task>): (shown: seq<string>)
    ensures |shown| == |tasks|
    ensures forall i :: 0 <= i < |tasks| ==> shown[i] == tasks[i].description
  {
    seq(|tasks|, i requires 0 <= i < |tasks| => tasks[i].description)
  }

  /** `update_project_selection` (src/services.rs:61-76). */
  function Shown(s: OldestState): (r: OldestState)
    requires !SelectionMissing(s.projects)
    ensures r.shownActive == TaskDescriptions(Selected(s.projects).activeTasks)
    ensures r.shownCompleted == TaskDescriptions(Selected(s.projects).completedTasks)
    ensures r.(shownActive := s.shownActive, shownCompleted := s.shownCompleted) == s
  {
    var p := s.projects.items[s.projects.selected.value];
    s.(shownActive := TaskDescriptions(p.activeTasks), shownCompleted := TaskDescriptions(p.completedTasks))
  }

  /** `ProjectManagementService::new` (src/services.rs:37-53): the projects are given and
      the working directory is the empty path. */
  function Initial(projects: seq<Project>): (s: OldestState)
    ensures s.projects == ListFrom(projects) && s.workPath == ""
    ensures |projects| > 0 ==>
      (s.shownActive == TaskDescriptions(projects[0].activeTasks)
       && s.shownCompleted == TaskDescriptions(projects[0].completedTasks))
    ensures |projects| == 0 ==> s.shownActive == [] && s.shownCompleted == []
    ensures s.mode == CommandMode && s.input == DefaultInput && s.message == DefaultMessage && s.delete == DefaultChoice
  {
    var s := OldestState(ListFrom(projects), [], [], DefaultInput, CommandMode, "", DefaultMessage, DefaultChoice);
    if |projects| > 0 then Shown(s) else s
  }

  /** A CommandMode key (src/services.rs:113-135); `None` is a panic in
      `update_project_selection` or `get_selected_project_name`. 'e' and 'n' call editing
      requests that do nothing, and keys without an arm do nothing. */
  function CommandKey(s: OldestState, key: Key): (r: Option<OldestState>)
    ensures key == Up ==> (r.None? <==> SelectionMissing(SelectPrevious(s.projects)))
    ensures key == Down ==> (r.None? <==> NextPanics(s.projects) || SelectionMissing(SelectNext(s.projects)))
    ensures key == Up && r.Some? ==> r.value == Shown(s.(projects := SelectPrevious(s.projects)))
    ensures key == Down && r.Some? ==> r.value == Shown(s.(projects := SelectNext(s.projects)))
    ensures key == Char('a') ==> r == Some(s.(mode := WriteMode, input := NewInput("Insert project name")))
    ensures key == Char('d') ==> (r.None? <==> |s.projects.items| > 0 && SelectionMissing(s.projects))
    ensures key == Char('d') && r.Some? && |s.projects.items| > 0 ==>
      r.value == s.(delete := NewChoice("Delete project: " + Selected(s.projects).name), mode := WriteMode)
    ensures key == Char('d') && |s.projects.items| == 0 ==> r == Some(s)
    ensures key !in {Up, Down, Char('a'), Char('d')} ==> r == Some(s)
  {
    match key
    case Up =>
      var s1 := s.(projects := SelectPrevious(s.projects));
      if SelectionMissing(s1.projects) then None else Some(Shown(s1))
    case Down =>
      if NextPanics(s.projects) then None
      else
        var s1 := s.(projects := SelectNext(s.projects));
        if SelectionMissing(s1.projects) then None else Some(Shown(s1))
    case Char(c) =>
      if c == 'a' then Some(s.(mode := WriteMode, input := NewInput("Insert project name")))
      else if c == 'd' then
        if |s.projects.items| == 0 then Some(s)
        else if SelectionMissing(s.projects) then None
        else Some(s.(delete := NewChoice("Delete project: " + Selected(s.projects).name), mode := WriteMode))
      else Some(s)
    case _ => Some(s)
  }

  /** A key for an active message popup: acknowledging it closes it. */
  function MessageStep(s: OldestState, key: Key): (r: OldestState)
    ensures r.message.description == s.message.description
    ensures r.message.active <==> s.message.active && !MessageKey(s.message, key).done
    ensures r.(message := s.message) == s
  {
    var m := MessageKey(s.message, key);
    if m.done then s.(message := m.(active := false)) else s.(message := m)
  }

  /** A key for an active delete popup (src/services.rs:144-152): a confirmed "yes"
      removes the selected project's file, whatever the outcome, and rescans. */
  function DeleteKey(w: World, key: Key, io: Io): (r: Option<World>)
    ensures var c := ChoiceKey(w.view.delete, key);
      !c.completed ==> r == Some(w.(view := w.view.(delete := c)))
    ensures var c := ChoiceKey(w.view.delete, key);
      c.completed && !c.choice ==> r == Some(w.(view := w.view.(delete := c.(active := false))))
    ensures var c := ChoiceKey(w.view.delete, key);
      c.completed && c.choice ==> (r.None? <==> SelectionMissing(w.view.projects))
    ensures var c := ChoiceKey(w.view.delete, key);
      c.completed && c.choice && r.Some? ==>
        var e := Utils.Deleted(w.fs, Selected(w.view.projects).name, w.view.workPath, io.remove);
        r.value == World(w.view.(projects := Scanned(e.fs, w.view.workPath), delete := c.(active := false)), e.fs)
  {
    var s := w.view;
    var c := ChoiceKey(s.delete, key);
    if !c.completed then Some(w.(view := s.(delete := c)))
    else if !c.choice then Some(w.(view := s.(delete := c.(active := false))))
    else if SelectionMissing(s.projects) then None
    else
      var e := Utils.Deleted(w.fs, Selected(s.projects).name, s.workPath, io.remove);
      Some(World(s.(projects := Scanned(e.fs, s.workPath), delete := c.(active := false)), e.fs))
  }

  /** The completion block (src/services.rs:161-184): a confirmed name is turned into a new
      project, serialised and written to `<name>.pman` in the working directory. A failed
      serialisation leaves the entry confirmed; a failed write re-opens it. */
  function Completion(w: World, io: Io): (r: World)
    ensures !(w.view.input.active && w.view.input.finished) ==> r == w
    ensures w.view.input.active && w.view.input.finished && io.serialise.Fail? ==>
      r == w.(view := w.view.(message := NewMessage(ErrorPrefix + io.serialise.reason)))
    ensures w.view.input.active && w.view.input.finished && io.serialise.Succeed? ==>
      var name := w.view.input.text;
      var e := Write(w.fs, ProjectPath(w.view.workPath, name), NewProject(name), io.write);
      && r.fs == e.fs
      && (e.result.Ok? ==> && !r.view.input.active && r.view.mode == CommandMode
                           && r.view.projects == Scanned(e.fs, w.view.workPath))
      && (e.result.Err? ==> && r.view.message == NewMessage(ErrorPrefix + e.result.message)
                            && r.view.input == w.view.input.(finished := false))
  {
    var s := w.view;
    var name := s.input.text;
    if !(s.input.active && s.input.finished) then w
    else if io.serialise.Fail? then w.(view := s.(message := NewMessage(ErrorPrefix + io.serialise.reason)))
    else
      var e := Write(w.fs, ProjectPath(s.workPath, name), NewProject(name), io.write);
      if e.result.Ok? then
        World(s.(input := s.input.(active := false), projects := Scanned(e.fs, s.workPath), mode := CommandMode), e.fs)
      else
        World(s.(message := NewMessage(ErrorPrefix + e.result.message), input := s.input.(finished := false)), e.fs)
  }

  /** `handle_input_key` (src/services.rs:111-185); `None` is a panic. */
  function AfterKey(w: World, key: Key, io: Io): (r: Option<World>)
    ensures w.view.mode == CommandMode ==> (r.None? <==> CommandKey(w.view, key).None?)
    ensures w.view.mode == CommandMode && !(w.view.input.active && w.view.input.finished) && r.Some? ==>
      r.value == World(CommandKey(w.view, key).value, w.fs)
    ensures w.view.mode == WriteMode && w.view.message.active ==>
      r == Some(Completion(w.(view := MessageStep(w.view, key)), io))
    decreases if w.view.mode == WriteMode then 1 else 0
  {
    var s := w.view;
    match s.mode
    case CommandMode =>
      (match CommandKey(s, key)
       case None => None
       case Some(s1) => Some(Completion(World(s1, w.fs), io)))
    case WriteMode =>
      if s.message.active then Some(Completion(w.(view := MessageStep(s, key)), io))
      else if s.input.active then Some(Completion(w.(view := s.(input := InputKey(s.input, key))), io))
      else if s.delete.active then
        (match DeleteKey(w, key, io)
         case None => None
         case Some(w1) => Some(Completion(w1, io)))
      else
        (match AfterKey(w.(view := s.(mode := CommandMode)), key, io)
         case None => None
         case Some(w1) => Some(Completion(w1, io)))
  }

  // ---------------------------------------------------------------------------
  // The invariant this view keeps
  // ---------------------------------------------------------------------------

  /** What holds between keys. A confirmed entry is only left waiting behind the message
      of a failed serialisation; in CommandMode neither the input nor the delete popup is
      open (a message may be: a retried add can succeed while its message is still up);
      the input and delete popups are never open together; a delete is only offered on a
      non-empty list. */
  predicate Inv(s: OldestState)
  {
    && Consistent(s.projects)
    && (s.input.active && s.input.finished ==> s.message.active)
    && (s.mode == CommandMode ==> !s.input.active && !s.delete.active)
    && !(s.input.active && s.delete.active)
    && (s.delete.active ==> |s.projects.items| > 0)
  }

  /** The keys that reach the CommandMode arm: in CommandMode, or in WriteMode with no
      popup open. */
  predicate ReachesCommands(s: OldestState)
  {
    s.mode == CommandMode || (!s.message.active && !s.input.active && !s.delete.active)
  }

  /** The one key that panics in a state keeping `Inv`. */
  predicate EmptyListMove(s: OldestState, key: Key)
  {
    key in {Up, Down} && |s.projects.items| == 0 && ReachesCommands(s)
  }

  /** Between dispatch and completion: `Inv`, except that a confirmed entry may be waiting
      with no message shown when it was just confirmed in WriteMode. */
  predicate Dispatched(s: OldestState)
  {
    && Consistent(s.projects)
    && (s.mode == CommandMode ==> !s.input.active && !s.delete.active)
    && !(s.input.active && s.delete.active)
    && (s.delete.active ==> |s.projects.items| > 0)
  }

  lemma CompletionRestoresInv(w: World, io: Io)
    requires Dispatched(w.view)
    ensures Inv(Completion(w, io).view)
  {
  }

  lemma CommandKeyKeepsInv(s: OldestState, key: Key)
    requires Inv(s) && s.mode == CommandMode
    ensures CommandKey(s, key).None? <==> key in {Up, Down} && |s.projects.items| == 0
    ensures CommandKey(s, key).Some? ==> Dispatched(CommandKey(s, key).value)
  {
    SelectionMissingIffEmpty(s.projects);
    if key == Up && |s.projects.items| > 0 {
      SelectionMissingIffEmpty(SelectPrevious(s.projects));
    } else if key == Down && |s.projects.items| > 0 {
      SelectionMissingIffEmpty(SelectNext(s.projects));
    }
  }

  /** From any state keeping `Inv`, a key panics exactly when it is Up or Down on an empty
      list and reaches the CommandMode arm, and otherwise leaves a state keeping `Inv`. */
  lemma {:induction false} KeyKeepsInv(w: World, key: Key, io: Io)
    requires Inv(w.view)
    ensures AfterKey(w, key, io).None? <==> EmptyListMove(w.view, key)
    ensures AfterKey(w, key, io).Some? ==> Inv(AfterKey(w, key, io).value.view)
    decreases if w.view.mode == WriteMode then 1 else 0
  {
    var s := w.view;
    match s.mode
    case CommandMode =>
      CommandKeyKeepsInv(s, key);
      if CommandKey(s, key).Some? {
        CompletionRestoresInv(World(CommandKey(s, key).value, w.fs), io);
      }
    case WriteMode =>
      if s.message.active {
        CompletionRestoresInv(w.(view := MessageStep(s, key)), io);
      } else if s.input.active {
        CompletionRestoresInv(w.(view := s.(input := InputKey(s.input, key))), io);
      } else if s.delete.active {
        SelectionMissingIffEmpty(s.projects);
        var d := DeleteKey(w, key, io);
        assert d.Some? && Dispatched(d.value.view);
        CompletionRestoresInv(d.value, io);
      } else {
        var inner := w.(view := s.(mode := CommandMode));
        KeyKeepsInv(inner, key, io);
        if AfterKey(inner, key, io).Some? {
          CompletionRestoresInv(AfterKey(inner, key, io).value, io);
        }
      }
  }

  lemma InitialKeepsInv(projects: seq<Project>)
    ensures Inv(Initial(projects))
  {
  }

  // ---------------------------------------------------------------------------
  // What a confirmed entry and a confirmed delete do
  // ---------------------------------------------------------------------------

  /** Adding a project that can be written stores `Project::new(name)` in `<name>.pman`,
      lists it, and returns to CommandMode. */
  lemma AddSucceeds(w: World, io: Io)
    requires w.view.mode == WriteMode && !w.view.message.active
    requires w.view.input.active && !w.view.input.finished && w.view.input.text != ""
    requires WellFormed(w.fs) && io.serialise == Succeed
    requires Write(w.fs, ProjectPath(w.view.workPath, w.view.input.text), NewProject(w.view.input.text), io.write).result.Ok?
    ensures var r := AfterKey(w, Enter, io);
      var name := w.view.input.text;
      && r.Some?
      && Load(r.value.fs, ProjectPath(w.view.workPath, name), Succeed) == Ok(NewProject(name))
      && NewProject(name) in r.value.view.projects.items
      && !r.value.view.input.active && r.value.view.mode == CommandMode
  {
    var name := w.view.input.text;
    LoadAfterWrite(w.fs, ProjectPath(w.view.workPath, name), NewProject(name));
    WrittenProjectIsListed(w.fs, w.view.workPath, NewProject(name), io.write);
  }

  /** A failed write shows "Error: " and the reason, stores nothing, and re-opens the entry
      with its text. */
  lemma AddWriteFails(w: World, io: Io, reason: string)
    requires w.view.mode == WriteMode && !w.view.message.active
    requires w.view.input.active && !w.view.input.finished
    requires io.serialise == Succeed && io.write == Fail(reason)
    ensures var r := AfterKey(w, Enter, io);
      && r.Some? && r.value.fs == w.fs
      && r.value.view.message == NewMessage(ErrorPrefix + reason)
      && r.value.view.input == w.view.input
      && r.value.view.mode == WriteMode
  {
  }

  /** A failed serialisation shows its error but leaves the entry confirmed, so the next
      key, whatever it is and although it goes to the message, makes the view try the add
      again. */
  lemma SerialiseFailureRetries(w: World, io: Io, reason: string, key: Key, retry: Io)
    requires Inv(w.view) && w.view.mode == WriteMode && !w.view.message.active
    requires w.view.input.active && !w.view.input.finished && w.view.input.text != ""
    requires io.serialise == Fail(reason)
    requires WellFormed(w.fs) && retry.serialise == Succeed
    requires Write(w.fs, ProjectPath(w.view.workPath, w.view.input.text), NewProject(w.view.input.text), retry.write).result.Ok?
    ensures var r := AfterKey(w, Enter, io);
      && r.Some? && r.value.fs == w.fs
      && r.value.view.message == NewMessage(ErrorPrefix + reason)
      && r.value.view.input.active && r.value.view.input.finished
    ensures var r := AfterKey(w, Enter, io).value;
      var again := AfterKey(r, key, retry);
      var name := w.view.input.text;
      && again.Some?
      && Load(again.value.fs, ProjectPath(w.view.workPath, name), Succeed) == Ok(NewProject(name))
      && !again.value.view.input.active && again.value.view.mode == CommandMode
  {
    var name := w.view.input.text;
    LoadAfterWrite(w.fs, ProjectPath(w.view.workPath, name), NewProject(name));
  }

  /** A confirmed delete removes the selected project's file if it can and rescans either
      way; a failure shows no message. */
  lemma DeleteIgnoresOutcome(w: World, io: Io)
    requires Inv(w.view) && w.view.mode == WriteMode && !w.view.message.active
    requires w.view.delete.active && w.view.delete.choice
    ensures var r := AfterKey(w, Enter, io);
      var target := ProjectPath(w.view.workPath, Selected(w.view.projects).name);
      var e := Utils.Deleted(w.fs, Selected(w.view.projects).name, w.view.workPath, io.remove);
      && r.Some? && r.value.fs == e.fs
      && r.value.view.message == w.view.message
      && r.value.view.projects == Scanned(e.fs, w.view.workPath)
      && !r.value.view.delete.active
      && (e.result.Ok? ==> target !in r.value.fs.nodes)
  {
    SelectionMissingIffEmpty(w.view.projects);
  }

  /** The editing keys are not implemented: in a state keeping `Inv`, 'e' and 'n' in
      CommandMode change nothing. */
  lemma EditKeysDoNothing(w: World, key: Key, io: Io)
    requires Inv(w.view) && w.view.mode == CommandMode && key in {Char('e'), Char('n')}
    ensures AfterKey(w, key, io) == Some(w)
  {
  }

  // ---------------------------------------------------------------------------
  // ProjectManagementService
  // ---------------------------------------------------------------------------

  class ProjectManagementService {
    var projectsToDisplay: ListState<Project>
    var selectedProjectActiveTasks: seq<string>
    var selectedProjectCompletedTasks: seq<string>
    var projectInputPopup: InputState
    var inputMode: InputMode
    var programWorkPath: string
    var messagePopup: MessageState
    var deleteProjectPopup: ChoiceState

    function State(): OldestState
      reads this
    {
      OldestState(projectsToDisplay, selectedProjectActiveTasks, selectedProjectCompletedTasks,
        projectInputPopup, inputMode, programWorkPath, messagePopup, deleteProjectPopup)
    }

    ghost predicate Valid()
      reads this
    {
      Inv(State())
    }

    constructor (projects: seq<Project>)
      ensures State() == Initial(projects) && Valid()
    {
      projectsToDisplay := ListFrom(projects);
      selectedProjectActiveTasks := [];
      selectedProjectCompletedTasks := [];
      projectInputPopup := DefaultInput;
      inputMode := CommandMode;
      programWorkPath := "";
      messagePopup := DefaultMessage;
      deleteProjectPopup := DefaultChoice;
      new;
      if |projectsToDisplay.items| > 0 {
        UpdateProjectSelection();
      }
      InitialKeepsInv(projects);
    }

    method UpdateProjects(projects: seq<Project>)
      modifies this
      ensures State() == old(State()).(projects := ListFrom(projects))
    {
      projectsToDisplay := ListFrom(projects);
    }

    /** `next_project_selection` has an empty body. */
    method NextProjectSelection()
      ensures State() == old(State())
    {
    }

    method UpdateProjectSelection()
      requires !SelectionMissing(projectsToDisplay)
      modifies this
      ensures State() == Shown(old(State()))
    {
      var selected := projectsToDisplay.items[projectsToDisplay.selected.value];
      selectedProjectActiveTasks := TaskDescriptions(selected.activeTasks);
      selectedProjectCompletedTasks := TaskDescriptions(selected.completedTasks);
    }

    method AddProjectRequest()
      modifies this
      ensures State() == old(State()).(mode := WriteMode, input := NewInput("Insert project name"))
    {
      inputMode := WriteMode;
      projectInputPopup := NewInput("Insert project name");
    }

    method DeleteSelectedProject()
      requires |projectsToDisplay.items| > 0 ==> !SelectionMissing(projectsToDisplay)
      modifies this
      ensures CommandKey(old(State()), Char('d')) == Some(State())
    {
      if |projectsToDisplay.items| > 0 {
        deleteProjectPopup := NewChoice("Delete project: " + GetSelectedProjectName());
        inputMode := WriteMode;
      }
    }

    /** `edit_selected_project_name` is not implemented. */
    method EditSelectedProjectName()
      ensures State() == old(State())
    {
    }

    /** `edit_selected_project_description` is not implemented. */
    method EditSelectedProjectDescription()
      ensures State() == old(State())
    {
    }

    /** `get_selected_project_name` (src/services.rs:104-107). */
    function GetSelectedProjectName(): (r: string)
      requires !SelectionMissing(projectsToDisplay)
      reads this
      ensures r == Selected(projectsToDisplay).name
    {
      projectsToDisplay.items[projectsToDisplay.selected.value].name
    }

    method HandleCommandKey(key: Key)
      requires CommandKey(State(), key).Some?
      modifies this
      ensures State() == CommandKey(old(State()), key).value
    {
      match key {
        case Up =>
          projectsToDisplay := SelectPrevious(projectsToDisplay);
          UpdateProjectSelection();
        case Down =>
          projectsToDisplay := SelectNext(projectsToDisplay);
          UpdateProjectSelection();
        case Char(c) =>
          if c == 'a' {
            AddProjectRequest();
          } else if c == 'd' {
            DeleteSelectedProject();
          } else if c == 'e' {
            EditSelectedProjectDescription();
          } else if c == 'n' {
            EditSelectedProjectName();
          }
        case _ =>
      }
    }

    method HandleDeleteKey(key: Key, disk: Disk, io: Io)
      requires disk.Valid() && DeleteKey(World(State(), disk.fs), key, io).Some?
      modifies this, disk
      ensures disk.Valid()
      ensures World(State(), disk.fs) == DeleteKey(old(World(State(), disk.fs)), key, io).value
    {
      deleteProjectPopup := ChoiceKey(deleteProjectPopup, key);
      if deleteProjectPopup.completed {
        if deleteProjectPopup.choice {
          var _ := Utils.DeleteProjectOfName(GetSelectedProjectName(), programWorkPath, disk, io.remove);
          var projects := GetProjectsInPath(disk.fs, programWorkPath);
          UpdateProjects(projects);
        }
        deleteProjectPopup := deleteProjectPopup.(active := false);
      }
    }

    method CompleteInput(disk: Disk, io: Io)
      requires disk.Valid()
      modifies this, disk
      ensures disk.Valid()
      ensures World(State(), disk.fs) == Completion(old(World(State(), disk.fs)), io)
    {
      if projectInputPopup.active && projectInputPopup.finished {
        var newProject := NewProject(projectInputPopup.text);
        if io.serialise.Fail? {
          messagePopup := NewMessage("Error: " + io.serialise.reason);
          return;
        }
        var r := disk.WriteProject(ProjectPath(programWorkPath, newProject.name), newProject, io.write);
        match r {
          case Ok(_) =>
            projectInputPopup := projectInputPopup.(active := false);
            var projects := GetProjectsInPath(disk.fs, programWorkPath);
            UpdateProjects(projects);
            inputMode := CommandMode;
          case Err(e) =>
            messagePopup := NewMessage("Error: " + e);
            projectInputPopup := projectInputPopup.(finished := false);
            return;
        }
      }
    }

    /** `handle_input_key`; the only key it cannot take is Up or Down on an empty list
        when the key reaches the CommandMode arm, where the source panics. */
    method HandleInputKey(key: Key, disk: Disk, io: Io)
      requires disk.Valid() && Valid() && !EmptyListMove(State(), key)
      modifies this, disk
      ensures disk.Valid() && Valid()
      ensures AfterKey(old(World(State(), disk.fs)), key, io) == Some(World(State(), disk.fs))
    {
      KeyKeepsInv(World(State(), disk.fs), key, io);
      Handle(key, disk, io);
    }

    /** `handle_input_key` for any key the source does not panic on. */
    method Handle(key: Key, disk: Disk, io: Io)
      requires disk.Valid() && AfterKey(World(State(), disk.fs), key, io).Some?
      modifies this, disk
      ensures disk.Valid()
      ensures AfterKey(old(World(State(), disk.fs)), key, io) == Some(World(State(), disk.fs))
      decreases if inputMode == WriteMode then 1 else 0
    {
      match inputMode {
        case CommandMode =>
          HandleCommandKey(key);
        case WriteMode =>
          if messagePopup.active {
            messagePopup := MessageKey(messagePopup, key);
            if messagePopup.done {
              messagePopup := messagePopup.(active := false);
            }
          } else if projectInputPopup.active {
            projectInputPopup := InputKey(projectInputPopup, key);
          } else if deleteProjectPopup.active {
            HandleDeleteKey(key, disk, io);
          } else {
            inputMode := CommandMode;
            Handle(key, disk, io);
          }
      }
      CompleteInput(disk, io);
    }

    /** `get_controls_description` (src/services.rs:187-189): the same text whatever is
        open. */
    function GetControlsDescription(): (r: string)
      reads this
      ensures r == ProjectControls
    {
      "a - Add project     d - Delete project     e - Edit Project Description     n - Edit Project name"
    }

    function GetInputMode(): (m: InputMode)
      reads this
      ensures m == inputMode
    {
      match inputMode
      case CommandMode => CommandMode
      case WriteMode => WriteMode
    }

    method SetWorkingDirectory(path: string)
      modifies this
      ensures State() == old(State()).(workPath := path)
    {
      programWorkPath := path;
    }
  }
}
