/** What every generation of the project view does with its list of projects: rebuild it
    from a scan of the working directory, read the selected project, and show the names of
    its tasks. */
module ProjectListing {
  import opened Wrappers
  import opened Ui
  import opened TaskModel
  import opened ProjectModel
  import opened Storage

  /** `DisplayList::from(get_projects_in_path(dir))`: the projects stored in `dir`, the
      first one selected. */
  function Scanned(fs: Fs, dir: string): (l: ListState<Project>)
    ensures l.items == ProjectsOf(Listing(fs, dir))
    ensures forall q :: q in l.items <==>
      exists e :: e in Listing(fs, dir) && IsProjectEntry(e) && e.node.content.project == q
    ensures Consistent(l) && (l.selected.Some? ==> l.selected.value == 0)
  {
    ProjectsOfExactly(Listing(fs, dir));
    ListFrom(ProjectsOf(Listing(fs, dir)))
  }

  /** `state.selected().unwrap()` followed by indexing the list panics: nothing is
      selected, or the selection is past the end. */
  predicate SelectionMissing(l: ListState<Project>)
  {
    l.selected.None? || l.selected.value >= |l.items|
  }

  /** On a list whose selection is consistent, reading the selection panics exactly when
      the list is empty. */
  lemma SelectionMissingIffEmpty(l: ListState<Project>)
    requires Consistent(l)
    ensures SelectionMissing(l) <==> |l.items| == 0
  {
  }

  function Selected(l: ListState<Project>): (p: Project)
    requires !SelectionMissing(l)
    ensures p == l.items[l.selected.value]
    ensures p in l.items
  {
    l.items[l.selected.value]
  }

  /** The task names a view shows for the selected project. */
  function TaskNames(tasks: seq<Task>): (names: seq<string>)
    ensures |names| == |tasks|
    ensures forall i :: 0 <= i < |tasks| ==> names[i] == tasks[i].name
  {
    seq(|tasks|, i requires 0 <= i < |tasks| => tasks[i].name)
  }
}
