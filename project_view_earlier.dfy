/** The earlier project view (src/services/project_service.rs). It dispatches keys as the
    current one does (`ProjectView`), with three differences: `handle_input_key` returns
    nothing, a project that was added returns the view to CommandMode, and the input popup
    is the one of src/ui.rs, whose controls text is its own description. */
module ProjectViewEarlier {
  import opened Wrappers
  import opened Ui
  import opened ProjectModel
  import opened Storage
  import opened ProjectListing
  import ProjectView
  import Popups

  /** The completion block (src/services/project_service.rs:211-285). */
  function Completion(w: ProjectView.World, io: ProjectView.Io): (r: Option<ProjectView.World>)
    ensures !(w.view.input.active && w.view.input.finished) ==> r == Some(w)
    ensures r.None? <==>
      w.view.input.active && w.view.input.finished && w.view.inputType != ProjectView.ProjectAdd
      && SelectionMissing(w.view.projects)
    ensures w.view.input.active && w.view.input.finished && w.view.inputType == ProjectView.ProjectAdd ==>
      var e := Write(w.fs, ProjectPath(w.view.workPath, w.view.input.text), NewProject(w.view.input.text), io.write);
      && r.Some? && r.value.fs == e.fs
      && (e.result.Ok? ==> r.value.view == ProjectView.Accepted(w.view, e.fs).(mode := CommandMode))
      && (e.result.Err? ==> r.value.view == ProjectView.Refused(w.view, e.result.message + ProjectView.PathNote + w.view.workPath))
  {
    var s := w.view;
    var wp := s.workPath;
    var text := s.input.text;
    if !(s.input.active && s.input.finished) then Some(w)
    else match s.inputType
      case ProjectAdd =>
        var e := Write(w.fs, ProjectPath(wp, text), NewProject(text), io.write);
        if e.result.Ok? then Some(ProjectView.World(ProjectView.Accepted(s, e.fs).(mode := CommandMode), e.fs))
        else Some(ProjectView.World(ProjectView.Refused(s, e.result.message + " With path: " + wp), e.fs))
      case ProjectNameEdit =>
        if SelectionMissing(s.projects) then None
        else
          var project := Selected(s.projects);
          var moved := Rename(w.fs, ProjectPath(wp, project.name), ProjectPath(wp, text), io.rename);
          if moved.result.Err? then Some(ProjectView.World(ProjectView.Refused(s, moved.result.message), moved.fs))
          else
            var e := Write(moved.fs, ProjectPath(wp, text), project.(name := text), io.write);
            if e.result.Err? then Some(ProjectView.World(ProjectView.Refused(s, e.result.message), e.fs))
            else Some(ProjectView.World(ProjectView.Accepted(s, e.fs), e.fs))
      case ProjectDescriptionEdit =>
        if SelectionMissing(s.projects) then None
        else
          var project := Selected(s.projects).(description := text);
          var e := Write(w.fs, ProjectPath(wp, project.name), project, io.write);
          if e.result.Err? then Some(ProjectView.World(ProjectView.Refused(s, e.result.message), e.fs))
          else Some(ProjectView.World(ProjectView.Accepted(s, e.fs), e.fs))
  }

  /** `handle_input_key` (src/services/project_service.rs:152-286); `None` is a panic.
      CommandMode keys other than the six it acts on do nothing, and the completion block
      runs after them too. */
  function AfterKey(w: ProjectView.World, key: Key, io: ProjectView.Io): (r: Option<ProjectView.World>)
    ensures w.view.mode == CommandMode && key !in ProjectView.CommandKeys ==> r == Completion(w, io)
    ensures w.view.mode == CommandMode && key !in ProjectView.CommandKeys && !(w.view.input.active && w.view.input.finished) ==>
      r == Some(w)
    ensures w.view.mode == CommandMode && key in ProjectView.CommandKeys ==>
      (ProjectView.CommandKey(w.view, key).None? ==> r.None?)
    ensures w.view.mode == WriteMode && w.view.message.active ==>
      r == Completion(w.(view := ProjectView.MessageStep(w.view, key)), io)
    decreases if w.view.mode == WriteMode then 1 else 0
  {
    var s := w.view;
    match s.mode
    case CommandMode =>
      if key !in ProjectView.CommandKeys then Completion(w, io)
      else
        (match ProjectView.CommandKey(s, key)
         case None => None
         case Some(s1) => Completion(ProjectView.World(s1, w.fs), io))
    case WriteMode =>
      if s.message.active then Completion(w.(view := ProjectView.MessageStep(s, key)), io)
      else if s.input.active then Completion(w.(view := s.(input := InputKey(s.input, key))), io)
      else if s.delete.active then
        (match ProjectView.DeleteKey(w, key, io)
         case None => None
         case Some(w1) => Completion(w1, io))
      else
        (match AfterKey(w.(view := s.(mode := CommandMode)), key, io)
         case None => None
         case Some(w1) => Completion(w1, io))
  }

  /** `get_controls_description` (src/services/project_service.rs:288-297): the input
      popup of src/ui.rs shows its own description as its controls. */
  function Controls(s: ProjectView.ProjectViewState): (r: string)
    ensures s.message.active ==> r == MessageControls
    ensures !s.message.active && s.delete.active ==> r == ChoiceControls
    ensures !s.message.active && !s.delete.active && s.input.active ==> r == s.input.description
    ensures !s.message.active && !s.delete.active && !s.input.active ==> r == ProjectView.ProjectControls
  {
    if s.message.active then MessageControls
    else if s.delete.active then ChoiceControls
    else if s.input.active then s.input.description
    else ProjectView.ProjectControls
  }

  /** Between dispatch and completion: as for the current view, and a confirmed entry was
      reached through the input popup, so no message is shown. */
  predicate Dispatched(s: ProjectView.ProjectViewState)
  {
    ProjectView.Dispatched(s) && (s.input.active && s.input.finished ==> !s.message.active)
  }

  lemma CompletionRestoresInv(w: ProjectView.World, io: ProjectView.Io)
    requires Dispatched(w.view)
    ensures Completion(w, io).Some? && ProjectView.Inv(Completion(w, io).value.view)
  {
    SelectionMissingIffEmpty(w.view.projects);
  }

  /** From any state keeping `ProjectView.Inv`, a key panics exactly when the current view's does (Up
      or Down on an empty list with no popup open), and otherwise leaves a state keeping
      `ProjectView.Inv`. */
  lemma {:induction false} KeyKeepsInv(w: ProjectView.World, key: Key, io: ProjectView.Io)
    requires ProjectView.Inv(w.view)
    ensures AfterKey(w, key, io).None? <==> ProjectView.EmptyListMove(w.view, key)
    ensures AfterKey(w, key, io).Some? ==> ProjectView.Inv(AfterKey(w, key, io).value.view)
    decreases if w.view.mode == WriteMode then 1 else 0
  {
    var s := w.view;
    match s.mode
    case CommandMode =>
      if key in ProjectView.CommandKeys {
        ProjectView.CommandKeyKeepsInv(s, key);
        if ProjectView.CommandKey(s, key).Some? {
          CompletionRestoresInv(ProjectView.World(ProjectView.CommandKey(s, key).value, w.fs), io);
        }
      } else {
        CompletionRestoresInv(w, io);
      }
    case WriteMode =>
      if s.message.active {
        CompletionRestoresInv(w.(view := ProjectView.MessageStep(s, key)), io);
      } else if s.input.active {
        CompletionRestoresInv(w.(view := s.(input := InputKey(s.input, key))), io);
      } else if s.delete.active {
        SelectionMissingIffEmpty(s.projects);
        var d := ProjectView.DeleteKey(w, key, io);
        assert d.Some? && Dispatched(d.value.view);
        CompletionRestoresInv(d.value, io);
      } else {
        var inner := w.(view := s.(mode := CommandMode));
        KeyKeepsInv(inner, key, io);
        if AfterKey(inner, key, io).Some? {
          CompletionRestoresInv(AfterKey(inner, key, io).value, io);
        }
      }
  }

  /** The completion blocks of the two generations differ only in the mode a successful
      add leaves behind. */
  lemma CompletionsAgree(w: ProjectView.World, io: ProjectView.Io)
    ensures Completion(w, io).None? <==> ProjectView.Completion(w, io).Panic?
    ensures Completion(w, io).Some? ==>
      (var r := ProjectView.Completion(w, io).world;
       Completion(w, io).value ==
         if w.view.input.active && w.view.input.finished && w.view.inputType == ProjectView.ProjectAdd
            && Write(w.fs, ProjectPath(w.view.workPath, w.view.input.text), NewProject(w.view.input.text), io.write).result.Ok?
         then r.(view := r.view.(mode := CommandMode))
         else r)
  {
  }

  /** On states keeping `ProjectView.Inv`, this view and the current one reach the same files and the
      same view for every key, except that this one may be back in CommandMode where the
      current one is still in WriteMode. */
  lemma {:induction false} AgreesWithCurrentView(w: ProjectView.World, key: Key, io: ProjectView.Io)
    requires ProjectView.Inv(w.view)
    ensures AfterKey(w, key, io).None? <==> ProjectView.AfterKey(w, key, io).Panic?
    ensures AfterKey(w, key, io).Some? ==>
      var mine := AfterKey(w, key, io).value;
      var theirs := ProjectView.AfterKey(w, key, io).world;
      && mine == theirs.(view := theirs.view.(mode := mine.view.mode))
      && (mine.view.mode != theirs.view.mode ==> mine.view.mode == CommandMode)
    decreases if w.view.mode == WriteMode then 1 else 0
  {
    var s := w.view;
    KeyKeepsInv(w, key, io);
    ProjectView.KeyKeepsInv(w, key, io);
    match s.mode
    case CommandMode =>
      if key in ProjectView.CommandKeys {
        ProjectView.CommandKeyKeepsInv(s, key);
        if ProjectView.CommandKey(s, key).Some? {
          CompletionsAgree(ProjectView.World(ProjectView.CommandKey(s, key).value, w.fs), io);
        }
      }
    case WriteMode =>
      if s.message.active {
        CompletionsAgree(w.(view := ProjectView.MessageStep(s, key)), io);
      } else if s.input.active {
        CompletionsAgree(w.(view := s.(input := InputKey(s.input, key))), io);
      } else if s.delete.active {
        SelectionMissingIffEmpty(s.projects);
        CompletionsAgree(ProjectView.DeleteKey(w, key, io).value, io);
      } else {
        var inner := w.(view := s.(mode := CommandMode));
        AgreesWithCurrentView(inner, key, io);
        KeyKeepsInv(inner, key, io);
        ProjectView.KeyKeepsInv(inner, key, io);
        if AfterKey(inner, key, io).Some? {
          var mine := AfterKey(inner, key, io).value;
          var theirs := ProjectView.AfterKey(inner, key, io).world;
          // Neither leaves a confirmed entry waiting, so the final completion does nothing.
          assert Completion(mine, io) == Some(mine);
          assert ProjectView.Completion(theirs, io) == ProjectView.Step(theirs, true);
        }
      }
  }

  /** Adding a project that can be written stores it, lists it and returns to
      CommandMode, so the next key is a command again. */
  lemma AddSucceeds(w: ProjectView.World, io: ProjectView.Io)
    requires ProjectView.Confirming(w, ProjectView.ProjectAdd) && WellFormed(w.fs) && w.view.input.text != ""
    requires Write(w.fs, ProjectPath(w.view.workPath, w.view.input.text), NewProject(w.view.input.text), io.write).result.Ok?
    ensures var r := AfterKey(w, Enter, io);
      var name := w.view.input.text;
      && r.Some?
      && Load(r.value.fs, ProjectPath(w.view.workPath, name), Succeed) == Ok(NewProject(name))
      && NewProject(name) in r.value.view.projects.items
      && !r.value.view.input.active && r.value.view.mode == CommandMode
  {
    var name := w.view.input.text;
    LoadAfterWrite(w.fs, ProjectPath(w.view.workPath, name), NewProject(name));
    WrittenProjectIsListed(w.fs, w.view.workPath, NewProject(name), io.write);
  }

  /** The class of src/services/project_service.rs, over the same state as the current
      view's. */
  class ProjectManagementService {
    var projectsToDisplay: ListState<Project>
    var selectedProjectActiveTasks: seq<string>
    var selectedProjectCompletedTasks: seq<string>
    var projectInputPopup: InputState
    var inputMode: InputMode
    var inputType: ProjectView.ProjectInputType
    var programWorkPath: string
    var messagePopup: MessageState
    var deleteProjectPopup: ChoiceState

    function State(): ProjectView.ProjectViewState
      reads this
    {
      ProjectView.ProjectViewState(projectsToDisplay, selectedProjectActiveTasks, selectedProjectCompletedTasks,
        projectInputPopup, inputMode, inputType, programWorkPath, messagePopup, deleteProjectPopup)
    }

    ghost predicate Valid()
      reads this
    {
      ProjectView.Inv(State())
    }

    constructor (workingPath: string, disk: Disk)
      ensures State() == ProjectView.Initial(disk.fs, workingPath) && Valid()
    {
      var projects := GetProjectsInPath(disk.fs, workingPath);
      projectsToDisplay := ListFrom(projects);
      selectedProjectActiveTasks := [];
      selectedProjectCompletedTasks := [];
      projectInputPopup := DefaultInput;
      inputMode := CommandMode;
      inputType := ProjectView.ProjectAdd;
      programWorkPath := workingPath;
      messagePopup := DefaultMessage;
      deleteProjectPopup := DefaultChoice;
      new;
      if |projectsToDisplay.items| > 0 {
        UpdateProjectSelection();
      }
      ProjectView.InitialKeepsInv(disk.fs, workingPath);
    }

    method UpdateProjects(projects: seq<Project>)
      modifies this
      ensures State() == old(State()).(projects := ListFrom(projects))
    {
      projectsToDisplay := ListFrom(projects);
    }

    method ReloadProjects(disk: Disk)
      modifies this
      ensures State() == old(State()).(projects := Scanned(disk.fs, programWorkPath))
    {
      var projects := GetProjectsInPath(disk.fs, programWorkPath);
      UpdateProjects(projects);
    }

    method UpdateProjectSelection()
      requires !SelectionMissing(projectsToDisplay)
      modifies this
      ensures State() == ProjectView.Shown(old(State()))
    {
      var selected := projectsToDisplay.items[projectsToDisplay.selected.value];
      selectedProjectActiveTasks := TaskNames(selected.activeTasks);
      selectedProjectCompletedTasks := TaskNames(selected.completedTasks);
    }

    method CreatePopupWithMessage(message: string)
      modifies this
      ensures State() == old(State()).(message := NewMessage(message))
    {
      messagePopup := NewMessage(message);
    }

    method AddProjectRequest()
      modifies this
      ensures State() == ProjectView.AddRequest(old(State()))
    {
      inputMode := WriteMode;
      inputType := ProjectView.ProjectAdd;
      projectInputPopup := NewInput("Insert project name");
    }

    method WriteProjectToDisk(project: Project, disk: Disk, o: Outcome) returns (r: Result<()>)
      requires disk.Valid()
      modifies disk
      ensures disk.Valid()
      ensures Effect(disk.fs, r) == Write(old(disk.fs), ProjectPath(programWorkPath, project.name), project, o)
    {
      r := disk.WriteProject(ProjectPath(programWorkPath, project.name), project, o);
    }

    method DeleteSelectedProject()
      requires |projectsToDisplay.items| > 0 ==> !SelectionMissing(projectsToDisplay)
      modifies this
      ensures State() == ProjectView.DeleteRequest(old(State()))
    {
      if |projectsToDisplay.items| > 0 {
        deleteProjectPopup := NewChoice("Delete project: " + GetSelectedProjectName());
        inputMode := WriteMode;
      }
    }

    method EditSelectedProjectName()
      requires |projectsToDisplay.items| > 0 ==> !SelectionMissing(projectsToDisplay)
      modifies this
      ensures State() == ProjectView.NameRequest(old(State()))
    {
      if |projectsToDisplay.items| > 0 {
        inputMode := WriteMode;
        inputType := ProjectView.ProjectNameEdit;
        projectInputPopup := NewInput("Edit project name");
        projectInputPopup := Popups.WithText(projectInputPopup, GetSelectedProjectName());
      }
    }

    method EditSelectedProjectDescription()
      requires |projectsToDisplay.items| > 0 ==> !SelectionMissing(projectsToDisplay)
      modifies this
      ensures State() == ProjectView.DescriptionRequest(old(State()))
    {
      if |projectsToDisplay.items| > 0 {
        inputMode := WriteMode;
        inputType := ProjectView.ProjectDescriptionEdit;
        projectInputPopup := NewInput("Edit project description");
        projectInputPopup := Popups.WithText(projectInputPopup, projectsToDisplay.items[projectsToDisplay.selected.value].description);
      }
    }

    function GetSelectedProjectName(): (r: string)
      requires !SelectionMissing(projectsToDisplay)
      reads this
      ensures r == Selected(projectsToDisplay).name
    {
      projectsToDisplay.items[projectsToDisplay.selected.value].name
    }

    function GetSelectedProjectPathName(): (r: Option<string>)
      requires !SelectionOutOfRange(projectsToDisplay)
      reads this
      ensures r == ProjectView.SelectedName(State())
    {
      match projectsToDisplay.selected
      case Some(val) => Some(projectsToDisplay.items[val].name)
      case None => None
    }

    method HandleCommandKey(key: Key)
      requires key in ProjectView.CommandKeys && ProjectView.CommandKey(State(), key).Some?
      modifies this
      ensures State() == ProjectView.CommandKey(old(State()), key).value
    {
      match key {
        case Up =>
          projectsToDisplay := SelectPrevious(projectsToDisplay);
          UpdateProjectSelection();
        case Down =>
          projectsToDisplay := SelectNext(projectsToDisplay);
          UpdateProjectSelection();
        case Char(c) =>
          if c == 'a' {
            AddProjectRequest();
          } else if c == 'd' {
            DeleteSelectedProject();
          } else if c == 'e' {
            EditSelectedProjectDescription();
          } else {
            EditSelectedProjectName();
          }
      }
    }

    method HandleDeleteKey(key: Key, disk: Disk, io: ProjectView.Io)
      requires disk.Valid() && ProjectView.DeleteKey(ProjectView.World(State(), disk.fs), key, io).Some?
      modifies this, disk
      ensures disk.Valid()
      ensures ProjectView.World(State(), disk.fs) == ProjectView.DeleteKey(old(ProjectView.World(State(), disk.fs)), key, io).value
    {
      deleteProjectPopup := ChoiceKey(deleteProjectPopup, key);
      if deleteProjectPopup.completed {
        if deleteProjectPopup.choice {
          var r := disk.RemoveFile(ProjectPath(programWorkPath, GetSelectedProjectName()), io.remove);
          match r {
            case Ok(_) =>
            case Err(e) => CreatePopupWithMessage(e);
          }
          ReloadProjects(disk);
        }
        deleteProjectPopup := deleteProjectPopup.(active := false);
      }
    }

    method CompleteInput(disk: Disk, io: ProjectView.Io)
      requires disk.Valid() && Completion(ProjectView.World(State(), disk.fs), io).Some?
      modifies this, disk
      ensures disk.Valid()
      ensures ProjectView.World(State(), disk.fs) == Completion(old(ProjectView.World(State(), disk.fs)), io).value
    {
      if projectInputPopup.active && projectInputPopup.finished {
        match inputType {
          case ProjectAdd =>
            var r := WriteProjectToDisk(NewProject(projectInputPopup.text), disk, io.write);
            match r {
              case Ok(_) =>
                projectInputPopup := projectInputPopup.(active := false);
                ReloadProjects(disk);
                inputMode := CommandMode;
              case Err(e) =>
                CreatePopupWithMessage(e + " With path: " + programWorkPath);
                projectInputPopup := projectInputPopup.(finished := false);
                return;
            }
          case ProjectNameEdit =>
            var project := projectsToDisplay.items[projectsToDisplay.selected.value];
            var originalPath := ProjectPath(programWorkPath, project.name);
            var newPath := ProjectPath(programWorkPath, projectInputPopup.text);
            project := project.(name := projectInputPopup.text);
            var moved := disk.RenameFile(originalPath, newPath, io.rename);
            match moved {
              case Ok(_) =>
                var r := WriteProjectToDisk(project, disk, io.write);
                match r {
                  case Ok(_) =>
                  case Err(e) =>
                    CreatePopupWithMessage(e);
                    projectInputPopup := projectInputPopup.(finished := false);
                    return;
                }
                ReloadProjects(disk);
                projectInputPopup := projectInputPopup.(active := false);
              case Err(e) =>
                CreatePopupWithMessage(e);
                projectInputPopup := projectInputPopup.(finished := false);
                return;
            }
          case ProjectDescriptionEdit =>
            var project := projectsToDisplay.items[projectsToDisplay.selected.value];
            project := project.(description := projectInputPopup.text);
            var r := WriteProjectToDisk(project, disk, io.write);
            match r {
              case Ok(_) =>
                ReloadProjects(disk);
                projectInputPopup := projectInputPopup.(active := false);
              case Err(e) =>
                CreatePopupWithMessage(e);
                projectInputPopup := projectInputPopup.(finished := false);
                return;
            }
        }
      }
    }

    /** `handle_input_key`; the only key it cannot take is Up or Down on an empty list
        with no popup open, where the source panics. */
    method HandleInputKey(key: Key, disk: Disk, io: ProjectView.Io)
      requires disk.Valid() && Valid() && !ProjectView.EmptyListMove(State(), key)
      modifies this, disk
      ensures disk.Valid() && Valid()
      ensures AfterKey(old(ProjectView.World(State(), disk.fs)), key, io) == Some(ProjectView.World(State(), disk.fs))
    {
      KeyKeepsInv(ProjectView.World(State(), disk.fs), key, io);
      Handle(key, disk, io);
    }

    /** `handle_input_key` for any key the source does not panic on. */
    method Handle(key: Key, disk: Disk, io: ProjectView.Io)
      requires disk.Valid() && AfterKey(ProjectView.World(State(), disk.fs), key, io).Some?
      modifies this, disk
      ensures disk.Valid()
      ensures AfterKey(old(ProjectView.World(State(), disk.fs)), key, io) == Some(ProjectView.World(State(), disk.fs))
      decreases if inputMode == WriteMode then 1 else 0
    {
      match inputMode {
        case CommandMode =>
          if key in ProjectView.CommandKeys {
            HandleCommandKey(key);
          }
        case WriteMode =>
          if messagePopup.active {
            messagePopup := MessageKey(messagePopup, key);
            if messagePopup.done {
              messagePopup := messagePopup.(active := false);
            }
          } else if projectInputPopup.active {
            projectInputPopup := InputKey(projectInputPopup, key);
          } else if deleteProjectPopup.active {
            HandleDeleteKey(key, disk, io);
          } else {
            inputMode := CommandMode;
            Handle(key, disk, io);
          }
      }
      CompleteInput(disk, io);
    }

    function GetControlsDescription(): (r: string)
      reads this
      ensures r == Controls(State())
    {
      if messagePopup.active then MessageControls
      else if deleteProjectPopup.active then ChoiceControls
      else if projectInputPopup.active then projectInputPopup.description
      else "Q: Quit | A: Add project | D: Delete project | E: Edit Project Description | N: Edit Project name | Tab: Go to Tasks"
    }

    function GetInputMode(): (m: InputMode)
      reads this
      ensures m == inputMode
    {
      match inputMode
      case CommandMode => CommandMode
      case WriteMode => WriteMode
    }

    method SetWorkingDirectory(path: string)
      modifies this
      ensures State() == old(State()).(workPath := path)
    {
      programWorkPath := path;
    }
  }
}
