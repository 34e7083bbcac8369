/** The application (src/structure/application.rs): a project window that receives every
    key, a task window that is created but never reached, and the rule that decides when
    'q' quits. The terminal, its drawing and its flush are left out. */
module App {
  import opened Wrappers
  import opened Ui
  import opened Storage
  import ProjectView
  import TaskView
  import ProjectModel

  /** `SelectedWindow` (src/structure/application.rs:14-17). */
  datatype SelectedWindow = Project | Task

  /** The fields of `Application` that hold behaviour (src/structure/application.rs:19-26),
      with the project window's state and the files it works on. */
  datatype AppState = AppState(
    running: bool,
    window: SelectedWindow,
    projects: ProjectView.World,
    tasks: TaskView.TaskViewState)

  /** `TaskService::default()`. */
  const DefaultTasks := TaskView.TaskViewState(Path("", ""), ProjectModel.DefaultProject, ListFrom([]), ListFrom([]),
    false, CommandMode, DefaultInput, TaskView.AddName, DefaultMessage)

  /** `Application::new` (src/structure/application.rs:29-43). */
  function Initial(fs: Fs, path: string): (a: AppState)
    ensures a.running && a.window == Project
    ensures a.projects == ProjectView.World(ProjectView.Initial(fs, path), fs)
    ensures a.tasks == DefaultTasks
  {
    AppState(true, Project, ProjectView.World(ProjectView.Initial(fs, path), fs), DefaultTasks)
  }

  /** `handle_inputs` (src/structure/application.rs:109-122): the project window takes the
      key first, and what it returns is ignored; the application then quits on 'q' if the
      project window is in CommandMode. `None` is a panic in the project window. */
  function AfterKey(a: AppState, key: Key, io: ProjectView.Io): (r: Option<AppState>)
    ensures r.None? <==> ProjectView.AfterKey(a.projects, key, io).Panic?
    ensures r.Some? ==> r.value.projects == ProjectView.AfterKey(a.projects, key, io).world
    ensures r.Some? ==> r.value.window == a.window && r.value.tasks == a.tasks
    ensures r.Some? && !a.running ==> !r.value.running
  {
    match ProjectView.AfterKey(a.projects, key, io)
    case Panic => None
    case Step(w, _) =>
      var quit := w.view.mode == CommandMode && key == Char('q');
      Some(a.(projects := w, running := if quit then false else a.running))
  }

  /** Whether the project window shows no popup. */
  predicate PopupsClosed(s: ProjectView.ProjectViewState)
  {
    !s.message.active && !s.input.active && !s.delete.active
  }

  /** From a project window keeping its invariant, a key makes the application stop
      exactly when it is 'q' and no popup is open; any other key, and a 'q' that a popup
      receives, leaves it running. */
  lemma QuitsExactlyOnFreeQ(a: AppState, key: Key, io: ProjectView.Io)
    requires ProjectView.Inv(a.projects.view) && !ProjectView.EmptyListMove(a.projects.view, key)
    ensures var r := AfterKey(a, key, io);
      && r.Some?
      && (r.value.running <==> a.running && !(key == Char('q') && PopupsClosed(a.projects.view)))
  {
    ProjectView.KeyKeepsInv(a.projects, key, io);
    var s := a.projects.view;
    if key == Char('q') && s.mode == WriteMode && PopupsClosed(s) {
      var inner := a.projects.(view := s.(mode := CommandMode));
      assert ProjectView.AfterKey(inner, key, io) == ProjectView.Step(inner, false);
    }
  }

  /** A 'q' typed into the input popup is text: it is appended to the entry and the
      application keeps running. */
  lemma TypedQIsText(a: AppState, io: ProjectView.Io)
    requires ProjectView.Inv(a.projects.view) && a.projects.view.mode == WriteMode
    requires !a.projects.view.message.active && a.projects.view.input.active
    ensures var r := AfterKey(a, Char('q'), io);
      && r.Some? && r.value.running == a.running
      && r.value.projects.view.input.text == a.projects.view.input.text + "q"
      && r.value.projects.fs == a.projects.fs
  {
  }

  /** Keys never reach the task window and never change which window is selected: after
      any keys the project window did not panic on, both are as `new` left them. */
  lemma {:induction false} TaskWindowIsUnreached(fs: Fs, path: string, keys: seq<Key>, io: ProjectView.Io)
    ensures var r := Run(Initial(fs, path), keys, io);
      r.Some? ==> r.value.window == Project && r.value.tasks == DefaultTasks
  {
    RunKeepsWindows(Initial(fs, path), keys, io);
  }

  /** The application after a sequence of keys, or `None` once one panics. */
  function Run(a: AppState, keys: seq<Key>, io: ProjectView.Io): Option<AppState>
    decreases |keys|
  {
    if keys == [] then Some(a)
    else match AfterKey(a, keys[0], io)
      case None => None
      case Some(a1) => Run(a1, keys[1..], io)
  }

  lemma {:induction false} RunKeepsWindows(a: AppState, keys: seq<Key>, io: ProjectView.Io)
    ensures Run(a, keys, io).Some? ==>
      Run(a, keys, io).value.window == a.window && Run(a, keys, io).value.tasks == a.tasks
    decreases |keys|
  {
    if keys != [] {
      match AfterKey(a, keys[0], io)
      case None =>
      case Some(a1) => RunKeepsWindows(a1, keys[1..], io);
    }
  }

  /** The application stays stopped once it has quit. */
  lemma {:induction false} StoppedStaysStopped(a: AppState, keys: seq<Key>, io: ProjectView.Io)
    requires !a.running
    ensures Run(a, keys, io).Some? ==> !Run(a, keys, io).value.running
    decreases |keys|
  {
    if keys != [] {
      match AfterKey(a, keys[0], io)
      case None =>
      case Some(a1) => StoppedStaysStopped(a1, keys[1..], io);
    }
  }

  class Application {
    var activeFolderPath: string
    const projectWindow: ProjectView.ProjectManagementService
    const taskWindow: TaskView.TaskService
    var isRunning: bool
    var selectedWindow: SelectedWindow

    function Model(fs: Fs): AppState
      reads this, projectWindow, taskWindow
    {
      AppState(isRunning, selectedWindow, ProjectView.World(projectWindow.State(), fs), taskWindow.State())
    }

    constructor (path: string, disk: Disk)
      ensures Model(disk.fs) == Initial(disk.fs, path) && activeFolderPath == path
      ensures projectWindow.Valid() && fresh(projectWindow) && fresh(taskWindow)
    {
      activeFolderPath := path;
      projectWindow := new ProjectView.ProjectManagementService(path, disk);
      taskWindow := new TaskView.TaskService.Default();
      isRunning := true;
      selectedWindow := Project;
    }

    /** `handle_inputs`; the project window must not be given the one key it panics on. */
    method HandleInputs(key: Key, disk: Disk, io: ProjectView.Io)
      requires disk.Valid() && projectWindow.Valid()
      requires !ProjectView.EmptyListMove(projectWindow.State(), key)
      modifies this, projectWindow, disk
      ensures disk.Valid() && projectWindow.Valid() && activeFolderPath == old(activeFolderPath)
      ensures Some(Model(disk.fs)) == AfterKey(old(Model(disk.fs)), key, io)
    {
      var _ := projectWindow.HandleInputKey(key, disk, io);
      match projectWindow.GetInputMode() {
        case CommandMode =>
          if key == Char('q') {
            Quit();
          }
        case WriteMode =>
      }
    }

    /** `quit`: the flush of the terminal is left out. */
    method Quit()
      modifies this
      ensures !isRunning && selectedWindow == old(selectedWindow) && activeFolderPath == old(activeFolderPath)
    {
      isRunning := false;
    }
  }
}
