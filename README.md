# TUI Project Manager: the key-driven core, in Dafny

TUI_ProjectManager is a terminal program for keeping projects and their tasks. Each project
is stored as a JSON file `<name>.pman` in a working folder. A project view lists the projects.
A task view shows a project's active and completed tasks. Three kinds of popup take keys while
they are open: a message, a yes/no choice and a text entry. Every key goes through a
`handle_input_key` state machine.

This project models that state machine with the data it works on:

- the selection list;
- the popups;
- the three generations of the project view;
- the current task view and its draft;
- the application's quit rule;
- the project and task records;
- the directory scan;
- the word-wrap routine.

The folder is a map from paths to entries, with the order a directory listing yields them.
Every write, rename, removal and load takes an `Outcome` oracle (`Succeed` or `Fail(reason)`),
so the error branches of the program can be stated and proved.

Modules, one per source file:

| module | file | source |
|---|---|---|
| `Wrappers` | wrappers.dfy | `Option` and `Result` |
| `TaskModel` | task.dfy | src/structure/task.rs |
| `ProjectModel` | project.dfy | src/structure/project.rs (records) |
| `Storage` | storage.dfy | src/structure/project.rs (load, write, scan) and the file-system calls |
| `Ui` | ui.dfy | src/ui.rs: `DisplayList`, `InputMode`, the three popups, with the key transitions shared by all popup copies |
| `Popups` | popups.dfy | src/popups.rs |
| `ProjectListing` | project_listing.dfy | the project list a scan produces, shared by the project views |
| `Utils` | utils.dfy | src/utils.rs: `wrap`, `delete_project_of_name` |
| `TaskView` | task_view.dfy | src/services/task_s.rs |
| `TaskDraft` | task_draft.dfy | src/services/task_service.rs |
| `ProjectView` | project_view.dfy | src/services/project_s.rs |
| `ProjectViewEarlier` | project_view_earlier.dfy | src/services/project_service.rs |
| `ProjectViewOldest` | project_view_oldest.dfy | src/services.rs |
| `App` | application.dfy | src/structure/application.rs |

How each view is modelled:

- Each service is a class whose fields are the struct's fields. Lists and popups are value
  fields, because the Rust structs own them inline.
- Every method is proved against a pure specification function of the old state and the
  folder. For example, `ensures AfterKey(old(World(State(), disk.fs)), key, io) == ...`.
- The properties are lemmas about those functions.

What is proved about the views:

- In the three project views (`ProjectView`, `ProjectViewEarlier`, `ProjectViewOldest`) an
  invariant `Inv` holds between keys, and every key that does not panic leaves a state that
  again satisfies `Inv` (`KeyKeepsInv`).
- Under `Inv`, a key in `ProjectView` or `ProjectViewEarlier` panics exactly when it is Up or
  Down on an empty list with no popup open.
- In `ProjectViewOldest` the popups are checked only in WriteMode, so Up or Down on an empty
  list panics whenever the key reaches the CommandMode arm (`ReachesCommands`): in CommandMode
  even with a message open, in WriteMode when no popup is active.
- In `TaskView`, `Inv` says both lists are consistent. Under it no key panics, and every key but
  Up on an empty focused list keeps it (`TaskView.KeyKeepsInv`). That Up selects index 0 of
  nothing, after which 'c', 'e' and Down panic (`TaskView.UpOnEmptyStrandsSelection`).
- `TaskDraft` has no such invariant: completing the last active task leaves the selection past
  the end because nothing is reloaded (`TaskDraft.CompletingLastTaskStrandsSelection`). Its
  model states the panicking keys as `Panics`.

Where the code panics, through `unwrap` or a `usize` underflow (a debug build's overflow check), the model either returns
`None`/`Panic` or makes that case a precondition of the method.

`InputMode` declares only `CommandMode` and `WriteMode` (src/ui.rs:31-34). The arms that name
`SubWindowInputs` (src/services/task_s.rs:424, src/structure/application.rs:116) refer to a
variant that does not exist, so the model has no such mode and no such arm. The controls
texts advertise Tab ("Tab: Go to Tasks" at src/services/project_s.rs:294, "Tab: Back To
Projects" at src/services/task_s.rs:416), but no code switches windows:

- There is no focus router and no Tab switching: `selected_window` is never reassigned.
- The application ignores whether the project view consumed a key.
- The application quits on 'q' whenever the project view ends in CommandMode.

## Model

| member | source | states |
|---|---|---|
| Ui.ListFrom | src/ui.rs:120-130 | the list holds the content; something is selected iff the content is non-empty, and then index 0; the result is consistent |
| Ui.SelectNext | src/ui.rs:91-105 | items unchanged; an empty list keeps no selection; no selection becomes 0; the index moves by one and holds at the last index; consistency is preserved |
| Ui.SelectPrevious | src/ui.rs:106-118 | items unchanged; the index moves down by one and holds at 0; no selection becomes 0; on an empty list the result is inconsistent, `next` would underflow and indexing would panic |
| Ui.MovesStayConsistent | src/ui.rs:91-118 | on a non-empty list whose selection starts in range, any sequence of `next`/`previous` keeps it in range, keeps the items and never reaches the underflow |
| Ui.PreviousThenNextOnEmpty | src/ui.rs:94 | an empty list with no selection is consistent, yet `previous` followed by `next` reaches the `len - 1` underflow |
| Ui.DisplayList.From | src/ui.rs:120-130 | `from` builds the list that `ListFrom` describes |
| Ui.DisplayList.Next | src/ui.rs:91-105 | in-place `next` leaves the state `SelectNext` gives; it requires that the underflow is not reached |
| Ui.DisplayList.Previous | src/ui.rs:106-118 | in-place `previous` leaves the state `SelectPrevious` gives |
| Ui.NewMessage | src/ui.rs:141-147 | a new message popup is active, not done, and holds the text |
| Ui.MessageKey | src/ui.rs:191-198 | only Enter changes a message popup, by setting done; text and active flag unchanged |
| Ui.NewChoice | src/ui.rs:220-227 | a new choice is active, not completed, and answers no |
| Ui.ChoiceKey | src/ui.rs:235-242 | Left sets yes, Right sets no, any other key keeps the answer; Enter completes; message and active flag unchanged |
| Ui.NewInput | src/ui.rs:317-324 | a new entry is active, empty and not finished |
| Ui.InputKey | src/ui.rs:372-390 | a character is appended; Backspace drops the last character of a non-empty text and leaves an empty one empty; Enter finishes; Esc deactivates; other keys keep the text |
| Ui.Typed | src/ui.rs:372-390 | the key sequence for a word is one `Char` key per letter, in order |
| Ui.TypingAppends | src/ui.rs:372-390 | typing a word appends exactly that word and changes nothing else |
| Ui.TypeCorrectSubmit | src/ui.rs:372-390 | "a", "b", "c", Backspace, Enter into a fresh entry gives a finished entry holding "ab" |
| Ui.FeedAppend | src/ui.rs:372-390 | feeding two key sequences one after the other is feeding their concatenation |
| Ui.PopupMessageWindow.New | src/ui.rs:141-147 | `new` builds the popup `NewMessage` describes |
| Ui.PopupMessageWindow.IsCompleted | src/ui.rs:151-153 | returns the done flag |
| Ui.PopupMessageWindow.ResetCompletion | src/ui.rs:155-157 | clears only the done flag |
| Ui.PopupMessageWindow.IsActive | src/ui.rs:159-161 | returns the active flag |
| Ui.PopupMessageWindow.SetActive | src/ui.rs:163-165 | sets only the active flag |
| Ui.PopupMessageWindow.HandleInputKey | src/ui.rs:191-198 | the new state is `MessageKey` of the old one |
| Ui.PopupMessageWindow.GetControlsDescription | src/ui.rs:200-202 | the fixed "Press enter to continue" text |
| Ui.PopupMessageWindow.GetInputMode | src/ui.rs:204-206 | always CommandMode |
| Ui.PopupBinaryChoice.New | src/ui.rs:220-227 | `new` builds the choice `NewChoice` describes |
| Ui.PopupBinaryChoice.GetChoice | src/ui.rs:229-231 | returns the current answer |
| Ui.PopupBinaryChoice.HandleInputKey | src/ui.rs:235-242 | the new state is `ChoiceKey` of the old one |
| Ui.PopupBinaryChoice.IsCompleted | src/ui.rs:254-256 | returns the completed flag |
| Ui.PopupBinaryChoice.ResetCompletion | src/ui.rs:258-260 | clears only the completed flag |
| Ui.PopupBinaryChoice.IsActive | src/ui.rs:262-264 | returns the active flag |
| Ui.PopupBinaryChoice.SetActive | src/ui.rs:266-268 | sets only the active flag |
| Ui.PopupBinaryChoice.GetControlsDescription | src/ui.rs:244-246 | the fixed yes/no controls text |
| Ui.PopupBinaryChoice.GetInputMode | src/ui.rs:248-250 | always CommandMode |
| Ui.PopupInputWindow.New | src/ui.rs:317-324 | `new` builds the entry `NewInput` describes |
| Ui.PopupInputWindow.IsCompleted | src/ui.rs:348-350 | returns the finished flag |
| Ui.PopupInputWindow.ResetCompletion | src/ui.rs:352-354 | clears only the finished flag |
| Ui.PopupInputWindow.IsActive | src/ui.rs:356-358 | returns the active flag |
| Ui.PopupInputWindow.SetActive | src/ui.rs:360-362 | sets only the active flag |
| Ui.PopupInputWindow.GetInputData | src/ui.rs:366-368 | returns the text typed so far |
| Ui.PopupInputWindow.HandleInputKey | src/ui.rs:372-390 | the new state is `InputKey` of the old one |
| Ui.PopupInputWindow.GetControlsDescription | src/ui.rs:392-394 | this copy shows its own description as its controls |
| Ui.PopupInputWindow.GetInputMode | src/ui.rs:396-398 | always CommandMode |
| Popups.WithText | src/popups.rs:212-214 | replaces the text wholesale; description, active and finished flags unchanged |
| Popups.MessageWindow.New | src/popups.rs:24-30 | a new message is active, not done, and holds the text |
| Popups.MessageWindow.Default | src/popups.rs:14-19 | the derived default is empty and inactive |
| Popups.MessageWindow.IsCompleted | src/popups.rs:34-36 | returns the done flag |
| Popups.MessageWindow.ResetCompletion | src/popups.rs:38-40 | clears only the done flag |
| Popups.MessageWindow.IsActive | src/popups.rs:42-44 | returns the active flag |
| Popups.MessageWindow.SetActive | src/popups.rs:46-48 | sets only the active flag |
| Popups.MessageWindow.HandleInputKey | src/popups.rs:77-84 | only Enter changes the popup, by setting done |
| Popups.MessageWindow.GetControlsDescription | src/popups.rs:86-88 | the fixed "Press enter to continue" text |
| Popups.MessageWindow.GetInputMode | src/popups.rs:90-92 | always CommandMode |
| Popups.BinaryChoice.New | src/popups.rs:106-113 | a new choice answers no, is active and not completed |
| Popups.BinaryChoice.Default | src/popups.rs:97-103 | the derived default is empty and inactive |
| Popups.BinaryChoice.GetChoice | src/popups.rs:115-117 | returns the current answer |
| Popups.BinaryChoice.HandleInputKey | src/popups.rs:121-128 | Left sets yes, Right sets no, Enter completes without touching the answer |
| Popups.BinaryChoice.GetControlsDescription | src/popups.rs:130-132 | the fixed yes/no controls text |
| Popups.BinaryChoice.GetInputMode | src/popups.rs:134-136 | always CommandMode |
| Popups.BinaryChoice.IsCompleted | src/popups.rs:140-142 | returns the completed flag |
| Popups.BinaryChoice.ResetCompletion | src/popups.rs:144-146 | clears only the completed flag |
| Popups.BinaryChoice.IsActive | src/popups.rs:148-150 | returns the active flag |
| Popups.BinaryChoice.SetActive | src/popups.rs:152-154 | sets only the active flag |
| Popups.InputWindow.New | src/popups.rs:203-210 | a new entry is active, empty and not finished |
| Popups.InputWindow.Default | src/popups.rs:194-200 | the derived default is empty and inactive |
| Popups.InputWindow.SetInputString | src/popups.rs:212-214 | the text is replaced wholesale, both flags unchanged |
| Popups.InputWindow.IsCompleted | src/popups.rs:238-240 | returns the finished flag |
| Popups.InputWindow.ResetCompletion | src/popups.rs:242-244 | clears only the finished flag |
| Popups.InputWindow.IsActive | src/popups.rs:246-248 | returns the active flag |
| Popups.InputWindow.SetActive | src/popups.rs:250-252 | sets only the active flag |
| Popups.InputWindow.GetInputData | src/popups.rs:256-258 | returns exactly the text typed so far and changes nothing |
| Popups.InputWindow.HandleInputKey | src/popups.rs:262-280 | Char appends, Backspace pops a non-empty text, Enter finishes, Esc deactivates keeping text and finished flag |
| Popups.InputWindow.GetControlsDescription | src/popups.rs:282-284 | the fixed entry controls text |
| Popups.InputWindow.GetInputMode | src/popups.rs:286-288 | always CommandMode |
| TaskModel.NewTask | src/structure/task.rs:15-24 | name and description as given, zero time spent and estimate, no sub-tasks, no tags |
| TaskModel.AddSubTask | src/structure/task.rs:38-48 | exactly one sub-task, equal to `Task::new(name, description)`, is appended at the end; no other field changes |
| TaskModel.GetDescription | src/structure/task.rs:28-30 | returns the description |
| TaskModel.GetName | src/structure/task.rs:32-34 | returns the description, which differs from the name whenever the two differ |
| TaskModel.RemoveAt | src/services/task_s.rs:93 | `Vec::remove(i)`: one element fewer, earlier ones in place, later ones shifted up, the multiset loses exactly the removed element |
| ProjectModel.NewProject | src/structure/project.rs:18-25 | the given name, "Sample description", no active and no completed tasks |
| ProjectModel.AddTask | src/structure/project.rs:45-48 | exactly one `Task::new(name, description)` is appended to the active tasks; the rest of the project is unchanged; the task count grows by one |
| Storage.LastDot | src/structure/project.rs:67 | the index of the last '.' of a file name, or none when there is none |
| Storage.Extension | src/structure/project.rs:67 | `Path::extension`: when present, the name is a non-empty stem, a dot and a dot-free extension; otherwise the stem is the whole name |
| Storage.StemOfNonEmpty | src/utils.rs:50-51 | a non-empty name has a non-empty stem |
| Storage.FileNameHasProjectExtension | src/utils.rs:50-51 | a file named after a non-empty project name carries the extension `pman` the scan looks for, keeps the name's stem, and setting the extension again changes nothing |
| Storage.Load | src/structure/project.rs:51-59 | succeeds iff the read succeeds and the path holds a file whose content parses, returning that project; a failed read reports its reason |
| Storage.Write | src/structure/project.rs:27-41 | succeeds iff the write succeeds and the path is not a directory; then the path holds the project and a new path is listed last; on failure nothing changes |
| Storage.Remove | src/utils.rs:52-55 | succeeds iff the removal succeeds and the path is a file; then exactly that path is gone; on failure nothing changes, and a failed outcome's reason is the error message |
| Storage.Rename | src/services/project_s.rs:242 | succeeds exactly when the environment allows it, `from` exists, and no directory is replaced by or replaces another entry; renaming a path to itself changes nothing; on success the entry has moved from `from` to `to` and every other path is unchanged; on failure nothing changes and the environment's reason is reported |
| Storage.LoadAfterWrite | src/structure/project.rs:51-59 | loading a path right after a successful write returns the project written |
| Storage.LoadAfterRename | src/services/project_s.rs:242 | loading the new path after a successful rename gives what the old path held |
| Storage.ListingOf | src/structure/project.rs:63-64 | the listing of a folder holds exactly the entries stored directly in it |
| Storage.ProjectsOfExactly | src/structure/project.rs:61-86 | the scan keeps exactly the regular `pman` files whose content parses, and never more projects than entries |
| Storage.GetProjectsInPath | src/structure/project.rs:61-86 | the loop collects, in listing order, the projects of the entries `ProjectsOf` keeps |
| Storage.WrittenProjectIsListed | src/structure/project.rs:61-86 | a project written under its own non-empty name shows up in the next scan of the folder |
| Storage.WritePreservesWellFormed | src/structure/project.rs:27-41 | a write keeps the folder well formed: every listed path has an entry and each is listed once |
| Storage.RemovePreservesWellFormed | src/utils.rs:52-55 | a removal keeps the folder well formed |
| Storage.RenamePreservesWellFormed | src/services/project_s.rs:242 | a rename keeps the folder well formed |
| Storage.Disk.constructor | src/structure/project.rs:61-86 | the disk starts as the given well-formed folder |
| Storage.Disk.WriteProject | src/structure/project.rs:27-41 | the disk's new state and the result are those of `Write` |
| Storage.Disk.RemoveFile | src/utils.rs:52-55 | the disk's new state and the result are those of `Remove` |
| Storage.Disk.RenameFile | src/services/project_s.rs:242 | the disk's new state and the result are those of `Rename` |
| Utils.Split | src/utils.rs:22 | `split(" ")` yields at least one piece and no piece holds the separator |
| Utils.JoinSplit | src/utils.rs:22 | joining the pieces with the separator gives the string back |
| Utils.JoinLast | src/utils.rs:22 | extending the last piece extends the joined string by the same text |
| Utils.SplitAppend | src/utils.rs:22 | appending separator-free text extends the last piece |
| Utils.SplitAppendPiece | src/utils.rs:22 | appending the separator and separator-free text adds one piece |
| Utils.Wrap | src/utils.rs:21-38 | the loop computes `Wrapped`, given `wrap_at_length >= 4` |
| Utils.Unwrapped | src/utils.rs:22-36 | every line break of the output turned back into a space, all else unchanged |
| Utils.UnwrappedAppend | src/utils.rs:22-36 | undoing the breaks distributes over concatenation |
| Utils.RunSeparates | src/utils.rs:26-36 | after n words the output is those words, each after exactly one separator, a space or a break |
| Utils.WrapUnwraps | src/utils.rs:22-36 | round trip: turning the breaks of `wrap(s)` back into spaces gives " " followed by `s` |
| Utils.WordsOfSplit | src/utils.rs:22 | a piece holds no character the string lacks |
| Utils.LinesJoin | src/utils.rs:33-35 | a word that fits extends the last line and keeps the layout |
| Utils.LaidBreak | src/utils.rs:29-31 | a word that reaches the limit starts a new line whose count restarts at its length, and the layout is kept |
| Utils.LaidJoin | src/utils.rs:33-35 | a word that fits behind the last line keeps the layout |
| Utils.RunLaid | src/utils.rs:26-36 | after every word the running count is the length of the last line and the layout holds |
| Utils.WrapLaysOutLines | src/utils.rs:21-38 | every output line is shorter than `wrap_at_length - 4` unless it holds one word, and a line was broken only where the next line's first word would not have fitted |
| Utils.WrapShortText | src/utils.rs:21-38 | when everything fits, the output is " " followed by the input, without breaks |
| Utils.NewlineSplits | src/utils.rs:22 | a string holding the separator splits into at least two pieces |
| Utils.SplitLengths | src/utils.rs:22 | the first two pieces and their separator take no more room than the string |
| Utils.FirstWordShort | src/utils.rs:22 | a line's first word is no longer than the line |
| Utils.ShortPieces | src/utils.rs:22 | no piece is longer than the string |
| Utils.Deleted | src/utils.rs:49-56 | removing `<name>.pman` from the folder: succeeds iff the removal succeeds and that file exists; then it is gone and every other path is unchanged |
| Utils.DeleteProjectOfName | src/utils.rs:49-56 | the disk and the result are those of `Deleted` |
| Utils.DeleteUndoesWrite | src/utils.rs:49-56 | delete and write address the same file: deleting a project just written succeeds, leaves nothing to load, and leaves the folder with the entries it had before when the file was new |
| ProjectListing.Scanned | src/structure/project.rs:61-86 | the list `DisplayList::from(get_projects_in_path(dir))`: exactly the scanned projects, consistent, the first one selected |
| ProjectListing.SelectionMissingIffEmpty | src/services/project_s.rs:66-81 | on a consistent list, reading the selected project panics exactly when the list is empty |
| ProjectListing.Selected | src/services/project_s.rs:134-138 | the project at the selected index, which is therefore one of the listed projects |
| ProjectListing.TaskNames | src/services/project_s.rs:66-81 | one shown name per task, in order, each the task's name |
| ProjectView.Shown | src/services/project_s.rs:66-81 | the shown active and completed lists become the selected project's task names; nothing else changes |
| ProjectView.Initial | src/services/project_s.rs:38-56 | the list is the scan of the working folder; the first project's tasks are shown, or none; CommandMode, type Add, all popups in their default state |
| ProjectView.AddRequest | src/services/project_s.rs:87-91 | 'a' opens a fresh empty add entry in WriteMode |
| ProjectView.DeleteRequest | src/services/project_s.rs:99-106 | on a non-empty list, opens "Delete project: <name>" in WriteMode; on an empty list nothing changes |
| ProjectView.NameRequest | src/services/project_s.rs:108-119 | on a non-empty list, opens a name entry holding the selected name in WriteMode; otherwise nothing changes |
| ProjectView.DescriptionRequest | src/services/project_s.rs:121-132 | on a non-empty list, opens a description entry holding the selected description; otherwise nothing changes |
| ProjectView.CommandKey | src/services/project_s.rs:152-172 | Up and Down run `previous`/`next` on the list, panic exactly when the moved selection cannot be read, and otherwise show the newly selected project's tasks and change nothing else; 'a' opens the add entry; 'd', 'e', 'n' open the delete question, the description entry and the name entry, and panic only on an unreadable selection of a non-empty list |
| ProjectView.MessageStep | src/services/project_s.rs:178-182 | the message popup stays open exactly until a key completes it; nothing else changes |
| ProjectView.DeleteKey | src/services/project_s.rs:185-203 | an undecided delete only updates the popup; "no" closes it; "yes" removes `<name>.pman`, rescans the folder, closes the popup, and shows a message when the removal fails |
| ProjectView.Refused | src/services/project_s.rs:220-227 | a failed completion shows the error and resets the entry's completion, keeping its text |
| ProjectView.Accepted | src/services/project_s.rs:216-219 | a successful completion rescans the folder and closes the entry |
| ProjectView.AfterKey | src/services/project_s.rs:150-284 | in CommandMode a key other than Up, Down, 'a', 'd', 'e', 'n' is not consumed and changes nothing |
| ProjectView.Controls | src/services/project_s.rs:286-295 | the open popup's controls in the order message, delete, entry; otherwise the view's own controls |
| ProjectView.SelectedName | src/services/project_s.rs:140-145 | a name iff something is selected, namely the selected project's |
| ProjectView.ApplicationSelection | src/services/project_s.rs:391-400 | the application's project becomes the selected project iff a selection exists |
| ProjectView.Completion | src/services/project_s.rs:211-283 | with no confirmed entry it only sets the consumed flag; it panics exactly when a confirmed name or description edit finds no selection; a confirmed add writes `Project::new(name)` to `<name>.pman`, consumes the key, and shows the accepted state exactly when the write succeeded; every other confirmed outcome is the accepted state or a refusal with a message (see `CompletionRestoresInv`, `AddSucceeds`) |
| ProjectView.CompletionRestoresInv | src/services/project_s.rs:211-283 | the completion block never panics after a dispatch and restores `Inv` |
| ProjectView.CompletionSettles | src/services/project_s.rs:211-283 | a confirmed entry is handled once; running the block again changes nothing |
| ProjectView.CommandKeyKeepsInv | src/services/project_s.rs:152-176 | under `Inv`, a command key panics exactly on Up or Down with an empty list, and otherwise leaves a dispatchable state |
| ProjectView.KeyKeepsInv | src/services/project_s.rs:150-284 | under `Inv`, a key panics exactly when it is Up or Down on an empty list with no popup open; every other key keeps `Inv`, including after the fallback re-dispatch |
| ProjectView.InitialKeepsInv | src/services/project_s.rs:38-56 | a fresh view satisfies `Inv` |
| ProjectView.AddSucceeds | src/services/project_s.rs:211-228 | a successful add stores `Project::new(name)` in `<name>.pman`, lists it with index 0 selected, closes the entry and consumes the key |
| ProjectView.AddFails | src/services/project_s.rs:211-228 | a failed add stores nothing and shows the error plus " With path: " and the folder; the entry keeps its text and list |
| ProjectView.RenameFails | src/services/project_s.rs:230-260 | a failed rename stores nothing, shows the error, keeps the typed text and reports the key as not consumed |
| ProjectView.RenameThenWriteFails | src/services/project_s.rs:230-260 | rename first, then write: when the write fails, the file stays moved with its old content, the old file is gone, the text is kept and the key is consumed |
| ProjectView.RenameSucceeds | src/services/project_s.rs:230-260 | a rename and write that go through store the selected project, renamed, under the new name, and close the entry |
| ProjectView.DescriptionEdited | src/services/project_s.rs:262-279 | the selected project is written with only its description replaced; the key is consumed iff the write succeeds; on failure the text is kept and the error shown |
| ProjectView.MessageTakesKeyFirst | src/services/project_s.rs:177-183 | with a message open, only the message popup sees the key; the other popups, the list and the folder stay as they were |
| ProjectView.DeleteDeclined | src/services/project_s.rs:185-203 | answering no closes the delete popup and touches nothing else |
| ProjectView.DeleteConfirmed | src/services/project_s.rs:185-203 | answering yes removes the selected project's `<name>.pman`, rescans, closes the popup, and shows a message iff the removal fails |
| ProjectView.ApplicationState.constructor | src/services/project_s.rs:391-400 | the shared application state starts with the default project |
| ProjectView.ProjectManagementService.constructor | src/services/project_s.rs:38-56 | the new view is `Initial` for the folder and satisfies `Inv` |
| ProjectView.ProjectManagementService.UpdateProjects | src/services/project_s.rs:58-60 | only the list is replaced, by `from` of the projects |
| ProjectView.ProjectManagementService.ReloadProjects | src/services/project_s.rs:62-64 | only the list is replaced, by a scan of the working folder |
| ProjectView.ProjectManagementService.UpdateProjectSelection | src/services/project_s.rs:66-81 | the new state is `Shown` of the old one |
| ProjectView.ProjectManagementService.CreatePopupWithMessage | src/services/project_s.rs:83-85 | only the message popup is replaced, by a new one with the text |
| ProjectView.ProjectManagementService.AddProjectRequest | src/services/project_s.rs:87-91 | the new state is `AddRequest` of the old one |
| ProjectView.ProjectManagementService.WriteProjectToDisk | src/services/project_s.rs:93-97 | the disk changes as `Write` of the project to `<name>.pman` in the working folder |
| ProjectView.ProjectManagementService.DeleteSelectedProject | src/services/project_s.rs:99-106 | the new state is `DeleteRequest` of the old one |
| ProjectView.ProjectManagementService.EditSelectedProjectName | src/services/project_s.rs:108-119 | the new state is `NameRequest` of the old one |
| ProjectView.ProjectManagementService.EditSelectedProjectDescription | src/services/project_s.rs:121-132 | the new state is `DescriptionRequest` of the old one |
| ProjectView.ProjectManagementService.GetSelectedProjectName | src/services/project_s.rs:134-138 | the selected project's name |
| ProjectView.ProjectManagementService.GetSelectedProjectPathName | src/services/project_s.rs:140-145 | the selected name, or none without a selection |
| ProjectView.ProjectManagementService.HandleCommandKey | src/services/project_s.rs:152-176 | the new state is `CommandKey` of the old one |
| ProjectView.ProjectManagementService.HandleDeleteKey | src/services/project_s.rs:185-203 | the view and the disk change as `DeleteKey` says |
| ProjectView.ProjectManagementService.CompleteInput | src/services/project_s.rs:211-283 | the view, the disk and the returned flag are those of `Completion` |
| ProjectView.ProjectManagementService.HandleInputKey | src/services/project_s.rs:150-284 | for every key but the panicking one, the view, disk and returned flag are those of `AfterKey`, and `Inv` is kept |
| ProjectView.ProjectManagementService.Handle | src/services/project_s.rs:150-284 | the recursive dispatch, re-dispatch included, computes `AfterKey` |
| ProjectView.ProjectManagementService.GetControlsDescription | src/services/project_s.rs:286-295 | the text `Controls` gives |
| ProjectView.ProjectManagementService.GetInputMode | src/services/project_s.rs:297-302 | the current mode |
| ProjectView.ProjectManagementService.SetWorkingDirectory | src/services/project_s.rs:382-384 | only the working folder changes |
| ProjectView.ProjectManagementService.UpdateApplicationState | src/services/project_s.rs:391-400 | the application's project is `ApplicationSelection` of the view |
| ProjectViewEarlier.Controls | src/services/project_service.rs:288-297 | the controls of the open popup in the order message, delete, entry; an open entry shows its own description |
| ProjectViewEarlier.CompletionRestoresInv | src/services/project_service.rs:211-285 | the completion block never panics after a dispatch and restores `Inv` |
| ProjectViewEarlier.Completion | src/services/project_service.rs:211-285 | with no confirmed entry it changes nothing; it panics exactly when a confirmed name or description edit finds no selection; a confirmed add writes the new project, returns to CommandMode on success, and on failure shows the error followed by " With path: " and the working path |
| ProjectViewEarlier.AfterKey | src/services/project_service.rs:152-286 | a non-command key in CommandMode only runs the completion block, which leaves an unconfirmed state unchanged; a command key that panics in the current view's dispatch panics here; an open message takes the key before the completion block (see `KeyKeepsInv`, `AgreesWithCurrentView`) |
| ProjectViewEarlier.KeyKeepsInv | src/services/project_service.rs:152-286 | under `Inv`, a key panics exactly when it is Up or Down on an empty list with no popup open; every other key keeps `Inv` |
| ProjectViewEarlier.CompletionsAgree | src/services/project_service.rs:213-222 | this completion block differs from the current one only in setting CommandMode after a successful add |
| ProjectViewEarlier.AgreesWithCurrentView | src/services/project_service.rs:152-286 | under `Inv`, every key reaches the same folder and view as in the current version, except that this one may be back in CommandMode |
| ProjectViewEarlier.AddSucceeds | src/services/project_service.rs:213-222 | a successful add stores and lists `Project::new(name)`, closes the entry and returns to CommandMode |
| ProjectViewEarlier.ProjectManagementService.constructor | src/services/project_service.rs:38-57 | the new view is the scan of the folder and satisfies `Inv` |
| ProjectViewEarlier.ProjectManagementService.UpdateProjects | src/services/project_service.rs:59-61 | only the list is replaced |
| ProjectViewEarlier.ProjectManagementService.ReloadProjects | src/services/project_service.rs:63-65 | only the list is replaced, by a scan |
| ProjectViewEarlier.ProjectManagementService.UpdateProjectSelection | src/services/project_service.rs:67-82 | the shown tasks follow the selection |
| ProjectViewEarlier.ProjectManagementService.CreatePopupWithMessage | src/services/project_service.rs:84-86 | only the message popup is replaced |
| ProjectViewEarlier.ProjectManagementService.AddProjectRequest | src/services/project_service.rs:88-92 | opens a fresh add entry in WriteMode |
| ProjectViewEarlier.ProjectManagementService.WriteProjectToDisk | src/services/project_service.rs:94-98 | the disk changes as `Write` to `<name>.pman` |
| ProjectViewEarlier.ProjectManagementService.DeleteSelectedProject | src/services/project_service.rs:100-107 | opens the delete question on a non-empty list |
| ProjectViewEarlier.ProjectManagementService.EditSelectedProjectName | src/services/project_service.rs:109-120 | opens the name entry on a non-empty list |
| ProjectViewEarlier.ProjectManagementService.EditSelectedProjectDescription | src/services/project_service.rs:122-134 | opens the description entry on a non-empty list |
| ProjectViewEarlier.ProjectManagementService.GetSelectedProjectName | src/services/project_service.rs:137-141 | the selected project's name |
| ProjectViewEarlier.ProjectManagementService.GetSelectedProjectPathName | src/services/project_service.rs:143-148 | the selected name, or none |
| ProjectViewEarlier.ProjectManagementService.HandleCommandKey | src/services/project_service.rs:154-176 | the CommandMode dispatch of the current version |
| ProjectViewEarlier.ProjectManagementService.HandleDeleteKey | src/services/project_service.rs:185-203 | the view and disk change as the delete branch says |
| ProjectViewEarlier.ProjectManagementService.CompleteInput | src/services/project_service.rs:211-285 | the view and disk are those of this version's `Completion` |
| ProjectViewEarlier.ProjectManagementService.HandleInputKey | src/services/project_service.rs:152-286 | for every key but the panicking one, the view and disk are those of `AfterKey`, and `Inv` is kept |
| ProjectViewEarlier.ProjectManagementService.Handle | src/services/project_service.rs:152-286 | the recursive dispatch computes `AfterKey` |
| ProjectViewEarlier.ProjectManagementService.GetControlsDescription | src/services/project_service.rs:288-297 | the text `Controls` gives |
| ProjectViewEarlier.ProjectManagementService.GetInputMode | src/services/project_service.rs:299-304 | the current mode |
| ProjectViewEarlier.ProjectManagementService.SetWorkingDirectory | src/services/project_service.rs:383-385 | only the working folder changes |
| ProjectViewOldest.TaskDescriptions | src/services.rs:61-76 | one shown line per task, in order, each the task's description |
| ProjectViewOldest.Shown | src/services.rs:61-76 | the shown lists become the selected project's task descriptions; nothing else changes |
| ProjectViewOldest.Initial | src/services.rs:37-53 | the list is `from` of the given projects, the first one's tasks shown, the working folder empty, CommandMode, default popups |
| ProjectViewOldest.CommandKey | src/services.rs:113-135 | Up/Down run `previous`/`next` and show the newly selected project's tasks, and panic exactly when the moved selection cannot be read; 'a' opens the entry; 'd' opens the question on a non-empty list; 'e', 'n' and other keys change nothing |
| ProjectViewOldest.MessageStep | src/services.rs:137-141 | the message stays open exactly until a key completes it |
| ProjectViewOldest.DeleteKey | src/services.rs:144-152 | "yes" removes `<name>.pman` whatever the outcome, rescans and closes the popup; "no" only closes it |
| ProjectViewOldest.CompletionRestoresInv | src/services.rs:161-184 | the completion block restores `Inv` |
| ProjectViewOldest.CommandKeyKeepsInv | src/services.rs:113-135 | under `Inv`, a command key panics exactly on Up or Down with an empty list |
| ProjectViewOldest.Completion | src/services.rs:161-184 | with no confirmed entry it changes nothing; a failed serialisation shows the error prefix and reason; otherwise the file system is the write's, success closes the entry, returns to CommandMode and rescans the folder, and failure shows the error and leaves the entry open but unfinished |
| ProjectViewOldest.AfterKey | src/services.rs:111-185 | in CommandMode the key panics exactly when its dispatch does, and with no confirmed entry the result is the dispatch alone; in WriteMode an open message takes the key before the completion block (see `KeyKeepsInv`) |
| ProjectViewOldest.KeyKeepsInv | src/services.rs:111-185 | under `Inv`, a key panics exactly when it is Up or Down on an empty list and reaches the CommandMode arm; every other key keeps `Inv` |
| ProjectViewOldest.InitialKeepsInv | src/services.rs:37-53 | a fresh view satisfies `Inv` |
| ProjectViewOldest.AddSucceeds | src/services.rs:172-177 | a successful add stores and lists `Project::new(name)`, closes the entry and returns to CommandMode |
| ProjectViewOldest.AddWriteFails | src/services.rs:178-182 | a failed write shows "Error: " and the reason, stores nothing, and keeps the entry open with its text |
| ProjectViewOldest.SerialiseFailureRetries | src/services.rs:163-168 | a failed serialisation shows the error without resetting completion, so the next key, whatever it is, retries the add |
| ProjectViewOldest.DeleteIgnoresOutcome | src/services.rs:146-152 | a confirmed delete removes the file if it can, rescans either way and shows no message on failure |
| ProjectViewOldest.EditKeysDoNothing | src/services.rs:94-102 | under `Inv`, 'e' and 'n' change nothing |
| ProjectViewOldest.ProjectManagementService.constructor | src/services.rs:37-53 | the new view is `Initial` and satisfies `Inv` |
| ProjectViewOldest.ProjectManagementService.UpdateProjects | src/services.rs:55-57 | only the list is replaced |
| ProjectViewOldest.ProjectManagementService.NextProjectSelection | src/services.rs:59 | changes nothing |
| ProjectViewOldest.ProjectManagementService.UpdateProjectSelection | src/services.rs:61-76 | the new state is `Shown` of the old one |
| ProjectViewOldest.ProjectManagementService.AddProjectRequest | src/services.rs:78-83 | opens a fresh "Insert project name" entry in WriteMode |
| ProjectViewOldest.ProjectManagementService.DeleteSelectedProject | src/services.rs:85-92 | the new state is what 'd' gives |
| ProjectViewOldest.ProjectManagementService.EditSelectedProjectName | src/services.rs:94-97 | changes nothing |
| ProjectViewOldest.ProjectManagementService.EditSelectedProjectDescription | src/services.rs:99-102 | changes nothing |
| ProjectViewOldest.ProjectManagementService.GetSelectedProjectName | src/services.rs:104-107 | the selected project's name |
| ProjectViewOldest.ProjectManagementService.HandleCommandKey | src/services.rs:113-135 | the new state is `CommandKey` of the old one |
| ProjectViewOldest.ProjectManagementService.HandleDeleteKey | src/services.rs:144-152 | the view and disk change as `DeleteKey` says |
| ProjectViewOldest.ProjectManagementService.CompleteInput | src/services.rs:161-184 | the view and disk are those of `Completion` |
| ProjectViewOldest.ProjectManagementService.HandleInputKey | src/services.rs:111-185 | for every key but the panicking one, the view and disk are those of `AfterKey`, and `Inv` is kept |
| ProjectViewOldest.ProjectManagementService.Handle | src/services.rs:111-185 | the recursive dispatch computes `AfterKey` |
| ProjectViewOldest.ProjectManagementService.GetControlsDescription | src/services.rs:187-189 | the same text whatever is open |
| ProjectViewOldest.ProjectManagementService.GetInputMode | src/services.rs:191-196 | the current mode |
| ProjectViewOldest.ProjectManagementService.SetWorkingDirectory | src/services.rs:275-277 | only the working folder changes |
| TaskView.Initial | src/services/task_s.rs:42-62 | `<name>.pman` of the folder is loaded, or the default project when that fails; both lists built from it; focus on active; CommandMode; default popups |
| TaskView.AddingTask | src/services/task_s.rs:64-68 | WriteMode with a fresh "Enter Task Name" entry of type AddName; nothing else changes |
| TaskView.EditingDescription | src/services/task_s.rs:70-85 | WriteMode with a fresh description entry holding the selected task's description in the focused list, or "" |
| TaskView.Saved | src/services/task_s.rs:96-102 | the project is written; a failure becomes a message popup |
| TaskView.MovedToCompleted | src/services/task_s.rs:87-106 | the selected active task moves to the end of the completed list and leaves the active one; the project mirrors both lists and is written; counts and the multiset of tasks are kept; no selection changes nothing |
| TaskView.MovedToActive | src/services/task_s.rs:108-127 | the mirror image of `MovedToCompleted` |
| TaskView.Reloaded | src/services/task_s.rs:133-144 | the project is loaded again, or becomes the default project with a message; both lists are rebuilt from it |
| TaskView.Committed | src/services/task_s.rs:320-332 | the project is written; on success the entry closes, CommandMode, and a reload; on failure a message and the entry stays finished |
| TaskView.TaskAdded | src/services/task_s.rs:313-333 | the task (text, "Description") is appended before the write, whatever its outcome |
| TaskView.Redescribed | src/services/task_s.rs:340-341 | only the selected task's description is replaced |
| TaskView.DescriptionEdited | src/services/task_s.rs:334-400 | only the selected task of the focused list gets the text, the project takes that list and is written; with no selection "Selected task is invalid" and no write |
| TaskView.CommandKey | src/services/task_s.rs:257-297 | Left/Right only set the focus; 'a' opens the add entry and 'e' the description entry; 'c' and 'u' act only on the matching focus, moving the selected task and then reloading; Up/Down run `previous`/`next` on the focused list only; other keys change nothing |
| TaskView.WriteKey | src/services/task_s.rs:298-405 | a key completing the message only closes it; otherwise an open message and the entry both take it; Esc returns to CommandMode without writing; an unfinished entry only records the key and writes nothing; a finished entry adds the task (`TaskAdded`) or edits the selected description (`DescriptionEdited`) according to the entry's type |
| TaskView.Controls | src/services/task_s.rs:410-418 | the message's controls, else the entry's, else the view's |
| TaskView.AfterKey | src/services/task_s.rs:255-408 | the key goes to the CommandMode or WriteMode handler by mode; the project file is kept and no other path of the folder changes (see `KeyKeepsInv`, `CompleteRoundTrip`) |
| TaskView.InitialKeepsInv | src/services/task_s.rs:42-62 | a fresh task view has both lists consistent |
| TaskView.CommittedKeepsInv | src/services/task_s.rs:313-333 | a finished entry keeps both lists consistent, by the failed write leaving them or the reload rebuilding them |
| TaskView.CommandKeyKeepsInv | src/services/task_s.rs:257-297 | with consistent lists no command key panics, and all but Up on an empty focused list keep them consistent |
| TaskView.TaskAddedKeepsInv | src/services/task_s.rs:313-333 | appending a task and committing keeps both lists consistent |
| TaskView.DescriptionEditedKeepsInv | src/services/task_s.rs:334-400 | redescribing the selected task, or reporting "Selected task is invalid", and committing keeps both lists consistent |
| TaskView.WriteKeyNeverPanics | src/services/task_s.rs:334-400 | with consistent lists a finished description entry never indexes past the focused list's end |
| TaskView.WriteKeyKeepsInv | src/services/task_s.rs:298-405 | with consistent lists no WriteMode key panics, and every one keeps them consistent |
| TaskView.KeyKeepsInv | src/services/task_s.rs:255-408 | with consistent lists no key panics, and every key but Up on an empty focused list keeps them consistent |
| TaskView.UpOnEmptyStrandsSelection | src/services/task_s.rs:279-295 | Up on an empty focused active list breaks consistency, after which 'c', 'e' and Down panic |
| TaskView.CompleteRoundTrip | src/services/task_s.rs:267-272 | completing with a working write and reload shows exactly the moved lists, first tasks selected |
| TaskView.FailedCompleteShowsStoredProject | src/services/task_s.rs:267-272 | when the write fails, the reload shows the stored project again and a message reports the error |
| TaskView.FailedAddRepeats | src/services/task_s.rs:313-333 | after a failed add the entry stays finished, and the next key not acknowledging the message appends the task a second time |
| TaskView.EscapeWritesNothing | src/services/task_s.rs:308-312 | Esc in an entry returns to CommandMode and writes nothing |
| TaskView.TaskService.constructor | src/services/task_s.rs:42-62 | the new view is `Initial` |
| TaskView.TaskService.Default | src/services/task_s.rs:28-39 | the default value: empty paths, the default project, empty lists, CommandMode |
| TaskView.TaskService.AddTaskCommand | src/services/task_s.rs:64-68 | the new state is `AddingTask` of the old one |
| TaskView.TaskService.EditTaskDescription | src/services/task_s.rs:70-85 | the new state is `EditingDescription` of the old one |
| TaskView.TaskService.CreateMessagePopup | src/services/task_s.rs:129-131 | only the message is replaced |
| TaskView.TaskService.Save | src/services/task_s.rs:96-102 | the view and disk are those of `Saved` |
| TaskView.TaskService.MarkSelectedTaskAsCompleted | src/services/task_s.rs:87-106 | the view and disk are those of `MovedToCompleted` |
| TaskView.TaskService.MarkSelectedTaskAsUncompleted | src/services/task_s.rs:108-127 | the view and disk are those of `MovedToActive` |
| TaskView.TaskService.UpdateProject | src/services/task_s.rs:133-144 | the new state is `Reloaded` |
| TaskView.TaskService.Commit | src/services/task_s.rs:320-332 | the view and disk are those of `Committed` |
| TaskView.TaskService.SetWorkingDirectory | src/services/task_s.rs:148-150 | only the project file path changes |
| TaskView.TaskService.HandleInputKey | src/services/task_s.rs:255-408 | for every key that does not panic, the view and disk are those of `AfterKey` |
| TaskView.TaskService.HandleCommandKey | src/services/task_s.rs:257-297 | the view and disk are those of `CommandKey` |
| TaskView.TaskService.HandleWriteKey | src/services/task_s.rs:298-405 | the view and disk are those of `WriteKey` |
| TaskView.TaskService.EditSelectedDescription | src/services/task_s.rs:334-400 | the view and disk are those of `DescriptionEdited` |
| TaskView.TaskService.GetControlsDescription | src/services/task_s.rs:410-418 | the text `Controls` gives |
| TaskView.TaskService.GetInputMode | src/services/task_s.rs:420-426 | the current mode |
| TaskDraft.AddingTask | src/services/task_service.rs:34-38 | WriteMode with a fresh add entry; nothing else changes |
| TaskDraft.EditingDescription | src/services/task_service.rs:40-55 | WriteMode with an entry holding the selected task's description, or "" |
| TaskDraft.MovedToCompleted | src/services/task_service.rs:57-71 | the selected task moves to the end of the completed list; the write's result is ignored; the multiset of tasks is kept |
| TaskDraft.MovedToActive | src/services/task_service.rs:73-87 | the mirror image of `MovedToCompleted` |
| TaskDraft.AfterKey | src/services/task_service.rs:165-232 | Left/Right set the focus; Up/Down run `previous`/`next` on the focused list; 'a' opens the add entry; 'c'/'u' move the selected task only on the matching focus and no reload follows; in WriteMode every key goes to the entry, closing it returns to CommandMode, and a finished entry changes nothing else |
| TaskDraft.CompletingLastTaskStrandsSelection | src/services/task_service.rs:57-71 | completing the only active task leaves the selection past the end, so the next 'c' or Down panics |
| TaskDraft.MovesKeepTasks | src/services/task_service.rs:57-87 | completing, switching focus and uncompleting loses no task, and the second move cannot panic |
| TaskDraft.DraftTaskService.AddTaskCommand | src/services/task_service.rs:34-38 | the new state is `AddingTask` |
| TaskDraft.DraftTaskService.EditTaskDescription | src/services/task_service.rs:40-55 | the new state is `EditingDescription` |
| TaskDraft.DraftTaskService.MarkSelectedTaskAsCompleted | src/services/task_service.rs:57-71 | the view and disk are those of `MovedToCompleted` |
| TaskDraft.DraftTaskService.MarkSelectedTaskAsUncompleted | src/services/task_service.rs:73-87 | the view and disk are those of `MovedToActive` |
| TaskDraft.DraftTaskService.SetWorkingDirectory | src/services/task_service.rs:91-93 | only the project file path changes |
| TaskDraft.DraftTaskService.HandleInputKey | src/services/task_service.rs:165-232 | for every key that does not panic, the view and disk are those of `AfterKey` |
| App.Initial | src/structure/application.rs:29-43 | running, the project window selected, the project view as `new` builds it, the task view at its default |
| App.AfterKey | src/structure/application.rs:109-122 | the project view takes the key first; a panic there is the only failure; the selected window and the task view never change; a stopped application stays stopped |
| App.QuitsExactlyOnFreeQ | src/structure/application.rs:111-121 | under the project view's `Inv`, a key stops the application exactly when it is 'q' and no popup is open |
| App.TypedQIsText | src/structure/application.rs:111-121 | a 'q' typed into the entry is appended to its text and the application keeps running |
| App.TaskWindowIsUnreached | src/structure/application.rs:109-122 | after any keys, the window is still Project and the task view still its default |
| App.RunKeepsWindows | src/structure/application.rs:109-122 | a sequence of keys changes neither the selected window nor the task view |
| App.StoppedStaysStopped | src/structure/application.rs:123-129 | once stopped, no key restarts the application |
| App.Application.constructor | src/structure/application.rs:29-43 | the application's state is `Initial` |
| App.Application.HandleInputs | src/structure/application.rs:109-122 | the new state is `AfterKey` of the old one, for every key the project view does not panic on |
| App.Application.Quit | src/structure/application.rs:123-129 | `is_running` becomes false; nothing else changes |

## Left out

- Rendering: every `display`/`draw`, `centered_rect`, the layouts and widgets, and `Application::update` with its display helpers. This is terminal painting.
- src/main.rs: the input thread, channel and tick timing are concurrency and OS event plumbing.
- Real file-system and JSON behaviour: each call is a map update with an `Outcome` parameter. The byte format is not modelled; a stored file holds either a parsed project or unparseable content.
- Path components: names holding '/', ".", ".." or an empty name are not treated as path components. `FileName` only replaces or adds the extension as `set_extension` does.
- The listing order of `read_dir` is modelled as creation order. A real file system may list in any order.
- The panics of `read_dir(...).unwrap()`, `file_type().unwrap()` and `read_to_string(...).unwrap()` in the scan: the scanned folder is always readable.
- The `to_str().unwrap()` panic on a working folder that is not valid UTF-8: paths are strings.
- `get_working_folder` and `create_working_folder_if_not_exist`: they depend on the command line, the home directory and a fatal mkdir.
- The terminal in `Application::new` and the flush in `quit`, including printing a flush error.
- The console line `println!("Writing error: ...")` that `write_project_full_path` prints on a failed write (src/structure/project.rs:37): it is terminal output; the error itself is returned and modelled.
- src/structure.rs, src/structure/mod.rs and src/services/mod.rs: a truncated stub and trait declarations, with no behaviour of their own.
- `get_controls_description` and `get_input_mode` of src/services/task_service.rs: both are `unimplemented!()`.
- The `SubWindowInputs` arms: `InputMode` has no such variant.
- `ApplicationState`: its definition is not part of this model. It is a class with the one field `update_application_state` writes.
- Calls into code that does not exist as written: `set_input_string` on the src/ui.rs entry, `utils::get_projects_in_path`, and `write_project_to_path`, which the draft task view calls after each move (src/services/task_service.rs:67, src/services/task_service.rs:83) but no file defines. They are modelled as `Popups.WithText`, `Storage.GetProjectsInPath`, and, for the last, the meaning of `Project::write_project_full_path` (src/structure/project.rs:27): a whole-project `Storage.Write` of the moved project to the view's project file, whose result the draft ignores. `TaskService::default` (the `#[derive(Default)]` at src/services/task_s.rs:28) needs a default `InputMode`, which src/ui.rs:31-34 does not declare; `TaskView.TaskService.Default` takes CommandMode for it and the derived defaults for every other field.
- The serialisation step of src/services.rs: whether `serde_json::to_string` fails is an `Outcome` of its own.
- `time_spent`, `estimate` and `tags` are carried as data only.
- Utils.Wrap: does not model the `u32` wrap-around of `line_length`; it is exact for inputs shorter than 2^32 characters. `wrap_at_length >= 4` is required, because the source's `wrap_at_length - 4` underflows otherwise.
- Utils.WrapUnwraps, Utils.WrapLaysOutLines and Utils.WrapShortText: they require an input without line breaks of its own, because an input line break cannot be told apart from one `wrap` inserts.
- ProjectView.ProjectManagementService.HandleInputKey, ProjectViewEarlier.ProjectManagementService.HandleInputKey and ProjectViewOldest.ProjectManagementService.HandleInputKey: they exclude the one key that panics under `Inv`, `EmptyListMove`: Up or Down on an empty list with no popup open, and in the oldest view Up or Down on an empty list whenever the key reaches the CommandMode arm, even with a message open in CommandMode. The pure `AfterKey` functions model that panic as `Panic`/`None`.
- TaskView.TaskService.HandleInputKey and TaskDraft.DraftTaskService.HandleInputKey: they exclude the keys `Panics` names (indexing at a stale selection, and `next` on an empty list that has a selection). The source panics on those keys.
- App.Application.HandleInputs: it excludes the key the project view panics on.
- Ui.SelectNext / Ui.DisplayList.Next / Ui.NextPanics: `self.array.len() - 1` at src/ui.rs:94 is taken to panic on an empty list, as it does with overflow checks on (the debug profile). A release build wraps it to `usize::MAX`, the `len() > 0` guard then skips the select and `next` quietly keeps the stale `Some(0)`; that wrap-around is not modelled, and no build profile in the repository settles which build is meant.
