/** The project view (src/services/project_s.rs): the projects found in the working
    directory as a selection list, and the input, message and delete popups through which
    projects are added, renamed, described and deleted. Every change goes to the project's
    file and the list is then rebuilt from a scan of the directory. */
module ProjectView {
  import opened Wrappers
  import opened Ui
  import opened TaskModel
  import opened ProjectModel
  import opened Storage
  import opened ProjectListing
  import Utils
  import Popups

  /** What the input popup is collecting (src/services/project_s.rs:17-21). */
  datatype ProjectInputType = ProjectAdd | ProjectDescriptionEdit | ProjectNameEdit

  const AddTitle := "Insert project name"
  const NameTitle := "Edit project name"
  const DescriptionTitle := "Edit project description"
  const DeletePrefix := "Delete project: "
  const PathNote := " With path: "
  const ProjectControls :=
    "Q: Quit | A: Add project | D: Delete project | E: Edit Project Description | N: Edit Project name | Tab: Go to Tasks"

  /** The keys CommandMode acts on; every other key is handed back unconsumed. */
  const CommandKeys: set<Key> := {Up, Down, Char('a'), Char('d'), Char('e'), Char('n')}

  /** The fields of `ProjectManagementService` (src/services/project_s.rs:23-35); the task
      lists shown beside the projects are kept as the task names. */
  datatype ProjectViewState = ProjectViewState(
    projects: ListState<Project>,
    shownActive: seq<string>,
    shownCompleted: seq<string>,
    input: InputState,
    mode: InputMode,
    inputType: ProjectInputType,
    workPath: string,
    message: MessageState,
    delete: ChoiceState)

  datatype World = World(view: ProjectViewState, fs: Fs)

  /** The environment's answers for the calls one key can make. */
  datatype Io = Io(write: Outcome, rename: Outcome, remove: Outcome)

  /** What `handle_input_key` leaves behind: the new world and whether the key was used,
      or a panic. */
  datatype Step = Step(world: World, consumed: bool) | Panic

  /** `update_project_selection` (src/services/project_s.rs:66-81). */
  function Shown(s: ProjectViewState): (r: ProjectViewState)
    requires !SelectionMissing(s.projects)
    ensures r.shownActive == TaskNames(Selected(s.projects).activeTasks)
    ensures r.shownCompleted == TaskNames(Selected(s.projects).completedTasks)
    ensures r.(shownActive := s.shownActive, shownCompleted := s.shownCompleted) == s
  {
    var p := s.projects.items[s.projects.selected.value];
    s.(shownActive := TaskNames(p.activeTasks), shownCompleted := TaskNames(p.completedTasks))
  }

  /** `ProjectManagementService::new` (src/services/project_s.rs:38-56). */
  function Initial(fs: Fs, workPath: string): (s: ProjectViewState)
    ensures s.projects == Scanned(fs, workPath) && s.workPath == workPath
    ensures |s.projects.items| > 0 ==>
      (s.shownActive == TaskNames(s.projects.items[0].activeTasks)
       && s.shownCompleted == TaskNames(s.projects.items[0].completedTasks))
    ensures |s.projects.items| == 0 ==> s.shownActive == [] && s.shownCompleted == []
    ensures s.mode == CommandMode && s.inputType == ProjectAdd
    ensures s.input == DefaultInput && s.message == DefaultMessage && s.delete == DefaultChoice
  {
    var s := ProjectViewState(Scanned(fs, workPath), [], [], DefaultInput, CommandMode, ProjectAdd,
      workPath, DefaultMessage, DefaultChoice);
    if |s.projects.items| > 0 then Shown(s) else s
  }

  /** `add_project_request` (src/services/project_s.rs:87-91). */
  function AddRequest(s: ProjectViewState): (r: ProjectViewState)
    ensures r == s.(mode := WriteMode, inputType := ProjectAdd, input := NewInput(AddTitle))
  {
    s.(mode := WriteMode, inputType := ProjectAdd, input := NewInput("Insert project name"))
  }

  /** `delete_selected_project` (src/services/project_s.rs:99-106). */
  function DeleteRequest(s: ProjectViewState): (r: ProjectViewState)
    requires |s.projects.items| > 0 ==> !SelectionMissing(s.projects)
    ensures |s.projects.items| == 0 ==> r == s
    ensures |s.projects.items| > 0 ==>
      r == s.(delete := NewChoice(DeletePrefix + Selected(s.projects).name), mode := WriteMode)
  {
    if |s.projects.items| > 0 then
      s.(delete := NewChoice("Delete project: " + Selected(s.projects).name), mode := WriteMode)
    else s
  }

  /** `edit_selected_project_name` (src/services/project_s.rs:108-119). */
  function NameRequest(s: ProjectViewState): (r: ProjectViewState)
    requires |s.projects.items| > 0 ==> !SelectionMissing(s.projects)
    ensures |s.projects.items| == 0 ==> r == s
    ensures |s.projects.items| > 0 ==> r == s.(mode := WriteMode, inputType := ProjectNameEdit,
      input := Popups.WithText(NewInput(NameTitle), Selected(s.projects).name))
  {
    if |s.projects.items| > 0 then
      s.(mode := WriteMode, inputType := ProjectNameEdit,
         input := Popups.WithText(NewInput("Edit project name"), Selected(s.projects).name))
    else s
  }

  /** `edit_selected_project_description` (src/services/project_s.rs:121-132). */
  function DescriptionRequest(s: ProjectViewState): (r: ProjectViewState)
    requires |s.projects.items| > 0 ==> !SelectionMissing(s.projects)
    ensures |s.projects.items| == 0 ==> r == s
    ensures |s.projects.items| > 0 ==> r == s.(mode := WriteMode, inputType := ProjectDescriptionEdit,
      input := Popups.WithText(NewInput(DescriptionTitle), Selected(s.projects).description))
  {
    if |s.projects.items| > 0 then
      s.(mode := WriteMode, inputType := ProjectDescriptionEdit,
         input := Popups.WithText(NewInput("Edit project description"), Selected(s.projects).description))
    else s
  }

  /** The CommandMode keys that are acted on (src/services/project_s.rs:152-172); `None`
      is a panic in `update_project_selection` or in reading the selected project. */
  function CommandKey(s: ProjectViewState, key: Key): (r: Option<ProjectViewState>)
    requires key in CommandKeys
    ensures key == Up ==> (r.None? <==> SelectionMissing(SelectPrevious(s.projects)))
    ensures key == Down ==> (r.None? <==> NextPanics(s.projects) || SelectionMissing(SelectNext(s.projects)))
    ensures key in {Up, Down} && r.Some? ==>
      r.value.(projects := s.projects, shownActive := s.shownActive, shownCompleted := s.shownCompleted) == s
    ensures key == Up && r.Some? ==> r.value.projects == SelectPrevious(s.projects)
    ensures key == Down && r.Some? ==> r.value.projects == SelectNext(s.projects)
    ensures key in {Up, Down} && r.Some? ==>
      && r.value.shownActive == TaskNames(Selected(r.value.projects).activeTasks)
      && r.value.shownCompleted == TaskNames(Selected(r.value.projects).completedTasks)
    ensures key == Char('a') ==> r == Some(AddRequest(s))
    ensures key in {Char('d'), Char('e'), Char('n')} ==>
      (r.None? <==> |s.projects.items| > 0 && SelectionMissing(s.projects))
    ensures key == Char('d') && r.Some? ==> r.value == DeleteRequest(s)
    ensures key == Char('e') && r.Some? ==> r.value == DescriptionRequest(s)
    ensures key == Char('n') && r.Some? ==> r.value == NameRequest(s)
  {
    match key
    case Up =>
      var s1 := s.(projects := SelectPrevious(s.projects));
      if SelectionMissing(s1.projects) then None else Some(Shown(s1))
    case Down =>
      if NextPanics(s.projects) then None
      else
        var s1 := s.(projects := SelectNext(s.projects));
        if SelectionMissing(s1.projects) then None else Some(Shown(s1))
    case Char(c) =>
      if c == 'a' then Some(AddRequest(s))
      else if |s.projects.items| > 0 && SelectionMissing(s.projects) then None
      else if c == 'd' then Some(DeleteRequest(s))
      else if c == 'e' then Some(DescriptionRequest(s))
      else Some(NameRequest(s))
  }

  /** A key for an active message popup: acknowledging it closes it. */
  function MessageStep(s: ProjectViewState, key: Key): (r: ProjectViewState)
    ensures r.message.description == s.message.description
    ensures r.message.active <==> s.message.active && !MessageKey(s.message, key).done
    ensures r.(message := s.message) == s
  {
    var m := MessageKey(s.message, key);
    if m.done then s.(message := m.(active := false)) else s.(message := m)
  }

  /** A key for an active delete popup (src/services/project_s.rs:185-203): once
      confirmed, the selected project's file is removed if the answer is yes and the list
      is rescanned; the popup closes on either answer. A failed removal becomes a message. */
  function DeleteKey(w: World, key: Key, io: Io): (r: Option<World>)
    ensures var c := ChoiceKey(w.view.delete, key);
      c.completed && !c.choice ==> r == Some(w.(view := w.view.(delete := c.(active := false))))
    ensures var c := ChoiceKey(w.view.delete, key);
      !c.completed ==> r == Some(w.(view := w.view.(delete := c)))
    ensures var c := ChoiceKey(w.view.delete, key);
      c.completed && c.choice ==> (r.None? <==> SelectionMissing(w.view.projects))
    ensures var c := ChoiceKey(w.view.delete, key);
      c.completed && c.choice && r.Some? ==>
        var e := Utils.Deleted(w.fs, Selected(w.view.projects).name, w.view.workPath, io.remove);
        && r.value.fs == e.fs
        && r.value.view.projects == Scanned(e.fs, w.view.workPath)
        && !r.value.view.delete.active
        && r.value.view.message == (if e.result.Err? then NewMessage(e.result.message) else w.view.message)
  {
    var s := w.view;
    var c := ChoiceKey(s.delete, key);
    if !c.completed then Some(w.(view := s.(delete := c)))
    else if !c.choice then Some(w.(view := s.(delete := c.(active := false))))
    else if SelectionMissing(s.projects) then None
    else
      var e := Utils.Deleted(w.fs, Selected(s.projects).name, s.workPath, io.remove);
      var message := if e.result.Err? then NewMessage(e.result.message) else s.message;
      Some(World(s.(message := message, projects := Scanned(e.fs, s.workPath), delete := c.(active := false)), e.fs))
  }

  /** A failed completion: the error is shown and the entry can be confirmed again, its
      text kept. */
  function Refused(s: ProjectViewState, message: string): (r: ProjectViewState)
    ensures r == s.(message := NewMessage(message), input := s.input.(finished := false))
  {
    s.(message := NewMessage(message), input := s.input.(finished := false))
  }

  /** A successful completion: the list is rescanned and the input popup closes. */
  function Accepted(s: ProjectViewState, fs: Fs): (r: ProjectViewState)
    ensures r == s.(projects := Scanned(fs, s.workPath), input := s.input.(active := false))
  {
    s.(projects := Scanned(fs, s.workPath), input := s.input.(active := false))
  }

  /** The block after the key is dispatched (src/services/project_s.rs:211-283): it acts
      only on an active input popup whose entry was confirmed. */
  function Completion(w: World, io: Io): (r: Step)
    ensures !(w.view.input.active && w.view.input.finished) ==> r == Step(w, true)
    ensures r.Panic? <==>
      w.view.input.active && w.view.input.finished && w.view.inputType != ProjectAdd && SelectionMissing(w.view.projects)
    ensures w.view.input.active && w.view.input.finished && r.Step? ==>
      r.world.view == Accepted(w.view, r.world.fs) || r.world.view == Refused(w.view, r.world.view.message.description)
    ensures w.view.input.active && w.view.input.finished && r.Step? && !r.consumed ==>
      r.world.view == Refused(w.view, r.world.view.message.description)
    ensures w.view.input.active && w.view.input.finished && w.view.inputType == ProjectAdd ==>
      var e := Write(w.fs, ProjectPath(w.view.workPath, w.view.input.text), NewProject(w.view.input.text), io.write);
      && r.Step? && r.consumed && r.world.fs == e.fs
      && (r.world.view == Accepted(w.view, e.fs) <==> e.result.Ok?)
  {
    var s := w.view;
    var wp := s.workPath;
    var text := s.input.text;
    if !(s.input.active && s.input.finished) then Step(w, true)
    else match s.inputType
      case ProjectAdd =>
        var e := Write(w.fs, ProjectPath(wp, text), NewProject(text), io.write);
        if e.result.Ok? then Step(World(Accepted(s, e.fs), e.fs), true)
        else Step(World(Refused(s, e.result.message + " With path: " + wp), e.fs), true)
      case ProjectNameEdit =>
        if SelectionMissing(s.projects) then Panic
        else
          var project := Selected(s.projects);
          var moved := Rename(w.fs, ProjectPath(wp, project.name), ProjectPath(wp, text), io.rename);
          if moved.result.Err? then Step(World(Refused(s, moved.result.message), moved.fs), false)
          else
            var e := Write(moved.fs, ProjectPath(wp, text), project.(name := text), io.write);
            if e.result.Err? then Step(World(Refused(s, e.result.message), e.fs), true)
            else Step(World(Accepted(s, e.fs), e.fs), true)
      case ProjectDescriptionEdit =>
        if SelectionMissing(s.projects) then Panic
        else
          var project := Selected(s.projects).(description := text);
          var e := Write(w.fs, ProjectPath(wp, project.name), project, io.write);
          if e.result.Err? then Step(World(Refused(s, e.result.message), e.fs), false)
          else Step(World(Accepted(s, e.fs), e.fs), true)
  }

  /** `handle_input_key` (src/services/project_s.rs:150-284). In WriteMode the key goes to
      the first active popup of message, input and delete; with none active the view
      returns to CommandMode and handles the key again there. The completion block runs
      after every dispatch that does not return early. */
  function AfterKey(w: World, key: Key, io: Io): (r: Step)
    ensures w.view.mode == CommandMode && key !in CommandKeys ==> r == Step(w, false)
    decreases if w.view.mode == WriteMode then 1 else 0
  {
    var s := w.view;
    match s.mode
    case CommandMode =>
      if key !in CommandKeys then Step(w, false)
      else
        (match CommandKey(s, key)
         case None => Panic
         case Some(s1) => Completion(World(s1, w.fs), io))
    case WriteMode =>
      if s.message.active then Completion(w.(view := MessageStep(s, key)), io)
      else if s.input.active then Completion(w.(view := s.(input := InputKey(s.input, key))), io)
      else if s.delete.active then
        (match DeleteKey(w, key, io)
         case None => Panic
         case Some(w1) => Completion(w1, io))
      else
        (match AfterKey(w.(view := s.(mode := CommandMode)), key, io)
         case Panic => Panic
         case Step(w1, _) => Completion(w1, io))
  }

  /** `get_controls_description` (src/services/project_s.rs:286-295). */
  function Controls(s: ProjectViewState): (r: string)
    ensures s.message.active ==> r == MessageControls
    ensures !s.message.active && s.delete.active ==> r == ChoiceControls
    ensures !s.message.active && !s.delete.active && s.input.active ==> r == Popups.InputControls
    ensures !s.message.active && !s.delete.active && !s.input.active ==> r == ProjectControls
  {
    if s.message.active then MessageControls
    else if s.delete.active then ChoiceControls
    else if s.input.active then Popups.InputControls
    else ProjectControls
  }

  /** `get_selected_project_path_name` (src/services/project_s.rs:140-145). */
  function SelectedName(s: ProjectViewState): (r: Option<string>)
    requires !SelectionOutOfRange(s.projects)
    ensures r.Some? <==> s.projects.selected.Some?
    ensures r.Some? ==> r.value == s.projects.items[s.projects.selected.value].name
  {
    match s.projects.selected
    case Some(i) => Some(s.projects.items[i].name)
    case None => None
  }

  /** `update_application_state` (src/services/project_s.rs:391-400): the application's
      selected project after the call. */
  function ApplicationSelection(s: ProjectViewState, current: Project): (r: Project)
    requires !SelectionOutOfRange(s.projects)
    ensures s.projects.selected.Some? ==> r == s.projects.items[s.projects.selected.value]
    ensures s.projects.selected.None? ==> r == current
  {
    match s.projects.selected
    case Some(i) => s.projects.items[i]
    case None => current
  }

  // ---------------------------------------------------------------------------
  // The invariant the view keeps
  // ---------------------------------------------------------------------------

  /** What holds between keys. The list's selection is consistent; no confirmed entry is
      left waiting; in CommandMode no popup is shown; the input and delete popups are never
      shown together; an edit or a delete is only ever open on a non-empty list. */
  predicate Inv(s: ProjectViewState)
  {
    && Consistent(s.projects)
    && !(s.input.active && s.input.finished)
    && (s.mode == CommandMode ==> !s.message.active && !s.input.active && !s.delete.active)
    && !(s.input.active && s.delete.active)
    && (s.input.active && s.inputType != ProjectAdd ==> |s.projects.items| > 0)
    && (s.delete.active ==> |s.projects.items| > 0)
  }

  /** The one key that panics in a state keeping `Inv`: Up or Down on an empty list with
      no popup open. */
  predicate EmptyListMove(s: ProjectViewState, key: Key)
  {
    key in {Up, Down} && |s.projects.items| == 0 && !s.message.active && !s.input.active && !s.delete.active
  }

  /** The invariant without "no confirmed entry is left waiting" in WriteMode: what holds
      between the dispatch and the completion block. */
  predicate Dispatched(s: ProjectViewState)
  {
    && Consistent(s.projects)
    && (s.mode == CommandMode ==> !s.message.active && !s.input.active && !s.delete.active)
    && !(s.input.active && s.delete.active)
    && (s.input.active && s.inputType != ProjectAdd ==> |s.projects.items| > 0)
    && (s.delete.active ==> |s.projects.items| > 0)
  }

  /** The completion block never panics after a dispatch and always restores `Inv`. */
  lemma CompletionRestoresInv(w: World, io: Io)
    requires Dispatched(w.view)
    ensures Completion(w, io).Step? && Inv(Completion(w, io).world.view)
  {
    SelectionMissingIffEmpty(w.view.projects);
  }

  /** A confirmed entry is dealt with once: running the completion block again, as the
      re-dispatch of a key does, changes nothing. */
  lemma CompletionSettles(w: World, io: Io)
    requires Completion(w, io).Step?
    ensures var r := Completion(w, io).world;
      !(r.view.input.active && r.view.input.finished) && Completion(r, io) == Step(r, true)
  {
  }

  lemma CommandKeyKeepsInv(s: ProjectViewState, key: Key)
    requires Inv(s) && s.mode == CommandMode && key in CommandKeys
    ensures CommandKey(s, key).None? <==> EmptyListMove(s, key)
    ensures CommandKey(s, key).Some? ==> Dispatched(CommandKey(s, key).value)
  {
    SelectionMissingIffEmpty(s.projects);
    if key == Up && |s.projects.items| > 0 {
      SelectionMissingIffEmpty(SelectPrevious(s.projects));
    } else if key == Down && |s.projects.items| > 0 {
      SelectionMissingIffEmpty(SelectNext(s.projects));
    }
  }

  /** From any state keeping `Inv`, a key panics exactly when it is Up or Down on an
      empty list with no popup open, and otherwise leaves a state keeping `Inv`. */
  lemma {:induction false} KeyKeepsInv(w: World, key: Key, io: Io)
    requires Inv(w.view)
    ensures AfterKey(w, key, io).Panic? <==> EmptyListMove(w.view, key)
    ensures AfterKey(w, key, io).Step? ==> Inv(AfterKey(w, key, io).world.view)
    decreases if w.view.mode == WriteMode then 1 else 0
  {
    var s := w.view;
    match s.mode
    case CommandMode =>
      if key in CommandKeys {
        CommandKeyKeepsInv(s, key);
        if CommandKey(s, key).Some? {
          CompletionRestoresInv(World(CommandKey(s, key).value, w.fs), io);
        }
      }
    case WriteMode =>
      if s.message.active {
        CompletionRestoresInv(w.(view := MessageStep(s, key)), io);
      } else if s.input.active {
        CompletionRestoresInv(w.(view := s.(input := InputKey(s.input, key))), io);
      } else if s.delete.active {
        SelectionMissingIffEmpty(s.projects);
        var d := DeleteKey(w, key, io);
        assert d.Some? && Dispatched(d.value.view);
        CompletionRestoresInv(d.value, io);
      } else {
        var inner := w.(view := s.(mode := CommandMode));
        KeyKeepsInv(inner, key, io);
        if AfterKey(inner, key, io).Step? {
          var w1 := AfterKey(inner, key, io).world;
          CompletionRestoresInv(w1, io);
        }
      }
  }

  /** The state a fresh view starts in keeps `Inv`. */
  lemma InitialKeepsInv(fs: Fs, workPath: string)
    ensures Inv(Initial(fs, workPath))
  {
  }

  // ---------------------------------------------------------------------------
  // The outcomes of a confirmed entry
  // ---------------------------------------------------------------------------

  /** A state with the input popup open for `kind`, about to receive Enter. */
  predicate Confirming(w: World, kind: ProjectInputType)
  {
    && w.view.mode == WriteMode && !w.view.message.active
    && w.view.input.active && !w.view.input.finished && w.view.inputType == kind
  }

  /** Adding a project that can be written: its file `<name>.pman` in the working
      directory now holds `Project::new(name)`, the rescanned list shows it with the first
      project selected, and the popup closes while the view stays in WriteMode. */
  lemma AddSucceeds(w: World, io: Io)
    requires Confirming(w, ProjectAdd) && WellFormed(w.fs) && w.view.input.text != ""
    requires Write(w.fs, ProjectPath(w.view.workPath, w.view.input.text), NewProject(w.view.input.text), io.write).result.Ok?
    ensures var r := AfterKey(w, Enter, io);
      var name := w.view.input.text;
      && r.Step? && r.consumed
      && Load(r.world.fs, ProjectPath(w.view.workPath, name), Succeed) == Ok(NewProject(name))
      && NewProject(name) in r.world.view.projects.items
      && r.world.view.projects.selected == Some(0)
      && !r.world.view.input.active && r.world.view.mode == WriteMode
  {
    var name := w.view.input.text;
    var p := ProjectPath(w.view.workPath, name);
    LoadAfterWrite(w.fs, p, NewProject(name));
    assert NewProject(name).name == name;
    WrittenProjectIsListed(w.fs, w.view.workPath, NewProject(name), io.write);
  }

  /** Adding a project whose write fails: nothing is stored, a message shows the error and
      the working directory, and the popup stays open with the text kept. */
  lemma AddFails(w: World, io: Io, reason: string)
    requires Confirming(w, ProjectAdd) && io.write == Fail(reason)
    ensures var r := AfterKey(w, Enter, io);
      && r.Step? && r.consumed && r.world.fs == w.fs
      && r.world.view.message == NewMessage(reason + PathNote + w.view.workPath)
      && r.world.view.input == w.view.input
      && r.world.view.projects == w.view.projects
  {
  }

  /** Renaming renames the file first. When that fails nothing is stored, the key counts
      as not consumed and the entry stays open with its text. */
  lemma RenameFails(w: World, io: Io, reason: string)
    requires Confirming(w, ProjectNameEdit) && !SelectionMissing(w.view.projects)
    requires io.rename == Fail(reason)
    ensures var r := AfterKey(w, Enter, io);
      && r.Step? && !r.consumed && r.world.fs == w.fs
      && r.world.view.message == NewMessage(reason)
      && r.world.view.input == w.view.input
  {
  }

  /** When the rename works but the write after it fails, nothing is rolled back: the file
      under the new name holds the project with its old name, the old file is gone, and the
      key counts as consumed. */
  lemma RenameThenWriteFails(w: World, io: Io, reason: string)
    requires Confirming(w, ProjectNameEdit) && !SelectionMissing(w.view.projects)
    requires io.rename == Succeed && io.write == Fail(reason)
    requires var was := Selected(w.view.projects);
      Rename(w.fs, ProjectPath(w.view.workPath, was.name), ProjectPath(w.view.workPath, w.view.input.text), Succeed).result.Ok?
    requires Load(w.fs, ProjectPath(w.view.workPath, Selected(w.view.projects).name), Succeed).Ok?
    ensures var r := AfterKey(w, Enter, io);
      var was := Selected(w.view.projects);
      var from := ProjectPath(w.view.workPath, was.name);
      var to := ProjectPath(w.view.workPath, w.view.input.text);
      && r.Step? && r.consumed
      && r.world.fs == Rename(w.fs, from, to, Succeed).fs
      && Load(r.world.fs, to, Succeed) == Load(w.fs, from, Succeed)
      && (from != to ==> from !in r.world.fs.nodes)
      && r.world.view.message == NewMessage(reason)
      && r.world.view.input == w.view.input
  {
    var was := Selected(w.view.projects);
    LoadAfterRename(w.fs, ProjectPath(w.view.workPath, was.name), ProjectPath(w.view.workPath, w.view.input.text));
  }

  /** A rename that goes through stores the selected project, renamed, under its new
      name. */
  lemma RenameSucceeds(w: World, io: Io)
    requires Confirming(w, ProjectNameEdit) && !SelectionMissing(w.view.projects)
    requires var was := Selected(w.view.projects);
      var moved := Rename(w.fs, ProjectPath(w.view.workPath, was.name), ProjectPath(w.view.workPath, w.view.input.text), io.rename);
      moved.result.Ok? && Write(moved.fs, ProjectPath(w.view.workPath, w.view.input.text), was.(name := w.view.input.text), io.write).result.Ok?
    ensures var r := AfterKey(w, Enter, io);
      && r.Step? && r.consumed && !r.world.view.input.active
      && Load(r.world.fs, ProjectPath(w.view.workPath, w.view.input.text), Succeed)
           == Ok(Selected(w.view.projects).(name := w.view.input.text))
  {
    var was := Selected(w.view.projects);
    var moved := Rename(w.fs, ProjectPath(w.view.workPath, was.name), ProjectPath(w.view.workPath, w.view.input.text), io.rename);
    LoadAfterWrite(moved.fs, ProjectPath(w.view.workPath, w.view.input.text), was.(name := w.view.input.text));
  }

  /** Editing a description stores the selected project with only its description
      replaced, and reports whether the write went through. */
  lemma DescriptionEdited(w: World, io: Io)
    requires Confirming(w, ProjectDescriptionEdit) && !SelectionMissing(w.view.projects)
    ensures var r := AfterKey(w, Enter, io);
      var edited := Selected(w.view.projects).(description := w.view.input.text);
      var e := Write(w.fs, ProjectPath(w.view.workPath, edited.name), edited, io.write);
      && r.Step? && r.world.fs == e.fs
      && (r.consumed <==> e.result.Ok?)
      && (e.result.Ok? ==> Load(r.world.fs, ProjectPath(w.view.workPath, edited.name), Succeed) == Ok(edited))
      && (e.result.Err? ==> r.world.view.input == w.view.input && r.world.view.message == NewMessage(e.result.message))
  {
    var edited := Selected(w.view.projects).(description := w.view.input.text);
    var e := Write(w.fs, ProjectPath(w.view.workPath, edited.name), edited, io.write);
    if e.result.Ok? {
      LoadAfterWrite(w.fs, ProjectPath(w.view.workPath, edited.name), edited);
    }
  }

  /** With a message shown, a key reaches only the message popup: the input and delete
      popups, the list and the files stay as they were. */
  lemma MessageTakesKeyFirst(w: World, key: Key, io: Io)
    requires Inv(w.view) && w.view.mode == WriteMode && w.view.message.active
    ensures var r := AfterKey(w, key, io);
      && r.Step? && r.world.fs == w.fs
      && r.world.view == MessageStep(w.view, key)
  {
  }

  /** Confirming a delete with "no" closes the popup and touches nothing else. */
  lemma DeleteDeclined(w: World, io: Io)
    requires w.view.mode == WriteMode && !w.view.message.active && !w.view.input.active
    requires w.view.delete.active && !w.view.delete.choice
    ensures var r := AfterKey(w, Enter, io);
      r == Step(w.(view := w.view.(delete := w.view.delete.(completed := true, active := false))), true)
  {
  }

  /** Confirming a delete with "yes" removes `<name>.pman` of the selected project, which
      is the file a write of that project goes to, and the rescanned list no longer shows
      anything stored there. */
  lemma DeleteConfirmed(w: World, io: Io)
    requires Inv(w.view) && w.view.mode == WriteMode && !w.view.message.active && !w.view.input.active
    requires w.view.delete.active && w.view.delete.choice
    ensures var r := AfterKey(w, Enter, io);
      var target := ProjectPath(w.view.workPath, Selected(w.view.projects).name);
      var e := Utils.Deleted(w.fs, Selected(w.view.projects).name, w.view.workPath, io.remove);
      && r.Step? && r.consumed && r.world.fs == e.fs
      && !r.world.view.delete.active
      && r.world.view.projects == Scanned(e.fs, w.view.workPath)
      && (e.result.Ok? ==> target !in r.world.fs.nodes)
      && (e.result.Err? ==> r.world.view.message == NewMessage(e.result.message))
  {
    SelectionMissingIffEmpty(w.view.projects);
  }

  // ---------------------------------------------------------------------------
  // ProjectManagementService
  // ---------------------------------------------------------------------------

  /** The `ApplicationState` the view reports its selection to; only its selected project
      is ever touched. */
  class ApplicationState {
    var selectedProject: Project

    constructor ()
      ensures selectedProject == DefaultProject
    {
      selectedProject := DefaultProject;
    }
  }

  /** `ProjectManagementService`. The list and the popups are owned by value in the
      source, so they are fields holding their states. */
  class ProjectManagementService {
    var projectsToDisplay: ListState<Project>
    var selectedProjectActiveTasks: seq<string>
    var selectedProjectCompletedTasks: seq<string>
    var projectInputPopup: InputState
    var inputMode: InputMode
    var inputType: ProjectInputType
    var programWorkPath: string
    var messagePopup: MessageState
    var deleteProjectPopup: ChoiceState

    function State(): ProjectViewState
      reads this
    {
      ProjectViewState(projectsToDisplay, selectedProjectActiveTasks, selectedProjectCompletedTasks,
        projectInputPopup, inputMode, inputType, programWorkPath, messagePopup, deleteProjectPopup)
    }

    ghost predicate Valid()
      reads this
    {
      Inv(State())
    }

    constructor (workingPath: string, disk: Disk)
      ensures State() == Initial(disk.fs, workingPath) && Valid()
    {
      var projects := GetProjectsInPath(disk.fs, workingPath);
      projectsToDisplay := ListFrom(projects);
      selectedProjectActiveTasks := [];
      selectedProjectCompletedTasks := [];
      projectInputPopup := DefaultInput;
      inputMode := CommandMode;
      inputType := ProjectAdd;
      programWorkPath := workingPath;
      messagePopup := DefaultMessage;
      deleteProjectPopup := DefaultChoice;
      new;
      if |projectsToDisplay.items| > 0 {
        UpdateProjectSelection();
      }
      InitialKeepsInv(disk.fs, workingPath);
    }

    method UpdateProjects(projects: seq<Project>)
      modifies this
      ensures State() == old(State()).(projects := ListFrom(projects))
    {
      projectsToDisplay := ListFrom(projects);
    }

    method ReloadProjects(disk: Disk)
      modifies this
      ensures State() == old(State()).(projects := Scanned(disk.fs, programWorkPath))
    {
      var projects := GetProjectsInPath(disk.fs, programWorkPath);
      UpdateProjects(projects);
    }

    method UpdateProjectSelection()
      requires !SelectionMissing(projectsToDisplay)
      modifies this
      ensures State() == Shown(old(State()))
    {
      var selected := projectsToDisplay.items[projectsToDisplay.selected.value];
      selectedProjectActiveTasks := TaskNames(selected.activeTasks);
      selectedProjectCompletedTasks := TaskNames(selected.completedTasks);
    }

    method CreatePopupWithMessage(message: string)
      modifies this
      ensures State() == old(State()).(message := NewMessage(message))
    {
      messagePopup := NewMessage(message);
    }

    method AddProjectRequest()
      modifies this
      ensures State() == AddRequest(old(State()))
    {
      inputMode := WriteMode;
      inputType := ProjectAdd;
      projectInputPopup := NewInput("Insert project name");
    }

    /** `write_project_to_disk` (src/services/project_s.rs:93-97): the project goes to the
        file named after it in the working directory. */
    method WriteProjectToDisk(project: Project, disk: Disk, o: Outcome) returns (r: Result<()>)
      requires disk.Valid()
      modifies disk
      ensures disk.Valid()
      ensures Effect(disk.fs, r) == Write(old(disk.fs), ProjectPath(programWorkPath, project.name), project, o)
    {
      r := disk.WriteProject(ProjectPath(programWorkPath, project.name), project, o);
    }

    method DeleteSelectedProject()
      requires |projectsToDisplay.items| > 0 ==> !SelectionMissing(projectsToDisplay)
      modifies this
      ensures State() == DeleteRequest(old(State()))
    {
      if |projectsToDisplay.items| > 0 {
        var popupDescription := "Delete project: " + GetSelectedProjectName();
        deleteProjectPopup := NewChoice(popupDescription);
        inputMode := WriteMode;
      }
    }

    method EditSelectedProjectName()
      requires |projectsToDisplay.items| > 0 ==> !SelectionMissing(projectsToDisplay)
      modifies this
      ensures State() == NameRequest(old(State()))
    {
      if |projectsToDisplay.items| > 0 {
        inputMode := WriteMode;
        inputType := ProjectNameEdit;
        projectInputPopup := NewInput("Edit project name");
        projectInputPopup := Popups.WithText(projectInputPopup, projectsToDisplay.items[projectsToDisplay.selected.value].name);
      }
    }

    method EditSelectedProjectDescription()
      requires |projectsToDisplay.items| > 0 ==> !SelectionMissing(projectsToDisplay)
      modifies this
      ensures State() == DescriptionRequest(old(State()))
    {
      if |projectsToDisplay.items| > 0 {
        inputMode := WriteMode;
        inputType := ProjectDescriptionEdit;
        projectInputPopup := NewInput("Edit project description");
        projectInputPopup := Popups.WithText(projectInputPopup, projectsToDisplay.items[projectsToDisplay.selected.value].description);
      }
    }

    /** `get_selected_project_name` (src/services/project_s.rs:134-138). */
    function GetSelectedProjectName(): (r: string)
      requires !SelectionMissing(projectsToDisplay)
      reads this
      ensures r == Selected(projectsToDisplay).name
    {
      projectsToDisplay.items[projectsToDisplay.selected.value].name
    }

    function GetSelectedProjectPathName(): (r: Option<string>)
      requires !SelectionOutOfRange(projectsToDisplay)
      reads this
      ensures r == SelectedName(State())
    {
      match projectsToDisplay.selected
      case Some(val) => Some(projectsToDisplay.items[val].name)
      case None => None
    }

    /** The dispatch of a CommandMode key that is acted on. */
    method HandleCommandKey(key: Key)
      requires key in CommandKeys && CommandKey(State(), key).Some?
      modifies this
      ensures State() == CommandKey(old(State()), key).value
    {
      match key {
        case Up =>
          projectsToDisplay := SelectPrevious(projectsToDisplay);
          UpdateProjectSelection();
        case Down =>
          projectsToDisplay := SelectNext(projectsToDisplay);
          UpdateProjectSelection();
        case Char(c) =>
          if c == 'a' {
            AddProjectRequest();
          } else if c == 'd' {
            DeleteSelectedProject();
          } else if c == 'e' {
            EditSelectedProjectDescription();
          } else {
            EditSelectedProjectName();
          }
      }
    }

    /** The branch for an active delete popup. */
    method HandleDeleteKey(key: Key, disk: Disk, io: Io)
      requires disk.Valid() && DeleteKey(World(State(), disk.fs), key, io).Some?
      modifies this, disk
      ensures disk.Valid()
      ensures World(State(), disk.fs) == DeleteKey(old(World(State(), disk.fs)), key, io).value
    {
      deleteProjectPopup := ChoiceKey(deleteProjectPopup, key);
      if deleteProjectPopup.completed {
        if deleteProjectPopup.choice {
          var r := Utils.DeleteProjectOfName(GetSelectedProjectName(), programWorkPath, disk, io.remove);
          match r {
            case Ok(_) =>
            case Err(e) => CreatePopupWithMessage(e);
          }
          ReloadProjects(disk);
        }
        deleteProjectPopup := deleteProjectPopup.(active := false);
      }
    }

    /** The block that acts on a confirmed entry. */
    method CompleteInput(disk: Disk, io: Io) returns (consumed: bool)
      requires disk.Valid() && Completion(World(State(), disk.fs), io).Step?
      modifies this, disk
      ensures disk.Valid()
      ensures Step(World(State(), disk.fs), consumed) == Completion(old(World(State(), disk.fs)), io)
    {
      consumed := true;
      if projectInputPopup.active && projectInputPopup.finished {
        match inputType {
          case ProjectAdd =>
            var newProject := NewProject(projectInputPopup.text);
            var r := WriteProjectToDisk(newProject, disk, io.write);
            match r {
              case Ok(_) =>
                ReloadProjects(disk);
                projectInputPopup := projectInputPopup.(active := false);
              case Err(e) =>
                CreatePopupWithMessage(e + " With path: " + programWorkPath);
                projectInputPopup := projectInputPopup.(finished := false);
            }
          case ProjectNameEdit =>
            var project := projectsToDisplay.items[projectsToDisplay.selected.value];
            var originalPath := ProjectPath(programWorkPath, project.name);
            var newPath := ProjectPath(programWorkPath, projectInputPopup.text);
            project := project.(name := projectInputPopup.text);
            var moved := disk.RenameFile(originalPath, newPath, io.rename);
            match moved {
              case Ok(_) =>
                var r := WriteProjectToDisk(project, disk, io.write);
                match r {
                  case Ok(_) =>
                  case Err(e) =>
                    CreatePopupWithMessage(e);
                    projectInputPopup := projectInputPopup.(finished := false);
                    return true;
                }
                ReloadProjects(disk);
                projectInputPopup := projectInputPopup.(active := false);
              case Err(e) =>
                CreatePopupWithMessage(e);
                projectInputPopup := projectInputPopup.(finished := false);
                return false;
            }
          case ProjectDescriptionEdit =>
            var project := projectsToDisplay.items[projectsToDisplay.selected.value];
            project := project.(description := projectInputPopup.text);
            var r := WriteProjectToDisk(project, disk, io.write);
            match r {
              case Ok(_) =>
                ReloadProjects(disk);
                projectInputPopup := projectInputPopup.(active := false);
                return true;
              case Err(e) =>
                CreatePopupWithMessage(e);
                projectInputPopup := projectInputPopup.(finished := false);
                return false;
            }
        }
      }
    }

    /** `handle_input_key`; the only key it cannot take is Up or Down on an empty list
        with no popup open, where the source panics. */
    method HandleInputKey(key: Key, disk: Disk, io: Io) returns (consumed: bool)
      requires disk.Valid() && Valid() && !EmptyListMove(State(), key)
      modifies this, disk
      ensures disk.Valid() && Valid()
      ensures AfterKey(old(World(State(), disk.fs)), key, io) == Step(World(State(), disk.fs), consumed)
    {
      KeyKeepsInv(World(State(), disk.fs), key, io);
      consumed := Handle(key, disk, io);
    }

    /** `handle_input_key` for any key the source does not panic on. */
    method Handle(key: Key, disk: Disk, io: Io) returns (consumed: bool)
      requires disk.Valid() && AfterKey(World(State(), disk.fs), key, io).Step?
      modifies this, disk
      ensures disk.Valid()
      ensures AfterKey(old(World(State(), disk.fs)), key, io) == Step(World(State(), disk.fs), consumed)
      decreases if inputMode == WriteMode then 1 else 0
    {
      match inputMode {
        case CommandMode =>
          if key !in CommandKeys {
            return false;
          }
          HandleCommandKey(key);
        case WriteMode =>
          if messagePopup.active {
            messagePopup := MessageKey(messagePopup, key);
            if messagePopup.done {
              messagePopup := messagePopup.(active := false);
            }
          } else if projectInputPopup.active {
            projectInputPopup := InputKey(projectInputPopup, key);
          } else if deleteProjectPopup.active {
            HandleDeleteKey(key, disk, io);
          } else {
            inputMode := CommandMode;
            var _ := Handle(key, disk, io);
          }
      }
      consumed := CompleteInput(disk, io);
    }

    function GetControlsDescription(): (r: string)
      reads this
      ensures r == Controls(State())
    {
      if messagePopup.active then MessageControls
      else if deleteProjectPopup.active then ChoiceControls
      else if projectInputPopup.active then Popups.InputControls
      else "Q: Quit | A: Add project | D: Delete project | E: Edit Project Description | N: Edit Project name | Tab: Go to Tasks"
    }

    function GetInputMode(): (m: InputMode)
      reads this
      ensures m == inputMode
    {
      match inputMode
      case CommandMode => CommandMode
      case WriteMode => WriteMode
    }

    method SetWorkingDirectory(path: string)
      modifies this
      ensures State() == old(State()).(workPath := path)
    {
      programWorkPath := path;
    }

    method UpdateApplicationState(applicationState: ApplicationState)
      requires !SelectionOutOfRange(projectsToDisplay)
      modifies applicationState
      ensures applicationState.selectedProject == ApplicationSelection(State(), old(applicationState.selectedProject))
    {
      var selectedIndex := 0;
      var validIndex := false;
      match projectsToDisplay.selected {
        case Some(t) =>
          selectedIndex := t;
          validIndex := true;
        case None =>
      }
      if validIndex {
        applicationState.selectedProject := projectsToDisplay.items[selectedIndex];
      }
    }
  }
}
