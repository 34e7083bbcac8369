/** The file system as the program sees it: project files named after their project, with
    the extension `pman`, written, read, renamed, removed and listed through `std::fs`
    (src/structure/project.rs, src/utils.rs).

    Every operation that can fail at the operating-system level takes an `Outcome`: the
    environment's answer to that one call. Failures the model can explain (a missing file,
    a directory where a file is expected, content that does not parse) happen regardless. */
module Storage {
  import opened Wrappers
  import opened ProjectModel

  /** `PROJECT_FILE_EXTENSION` (src/utils.rs:1). */
  const ProjectFileExtension := "pman"

  const NotFoundMessage := "No such file or directory (os error 2)"
  const IsADirectoryMessage := "Is a directory (os error 21)"
  const NotADirectoryMessage := "Not a directory (os error 20)"
  /** Stands for the text of whatever error serde_json reports. */
  const ParseErrorMessage := "expected value at line 1 column 1"

  /** A path made of a working directory joined with one file name. */
  datatype Path = Path(dir: string, file: string)

  /** The environment's answer to one operating-system call. */
  datatype Outcome = Succeed | Fail(reason: string)

  // ---------------------------------------------------------------------------
  // File names: Path::file_stem, Path::extension, Path::set_extension
  // ---------------------------------------------------------------------------

  /** Index of the last '.' in `s`. */
  function LastDot(s: string): (r: Option<nat>)
    ensures r.Some? ==> r.value < |s| && s[r.value] == '.'
    ensures r.Some? ==> forall k :: r.value < k < |s| ==> s[k] != '.'
    ensures r.None? ==> forall k :: 0 <= k < |s| ==> s[k] != '.'
  {
    if |s| == 0 then None
    else if s[|s| - 1] == '.' then Some(|s| - 1)
    else LastDot(s[..|s| - 1])
  }

  /** `Path::file_stem`: the name before the last '.', unless that part would be empty
      (a leading dot) or the name is "..". */
  function Stem(file: string): string
  {
    if file == ".." then file
    else match LastDot(file)
      case None => file
      case Some(i) => if i == 0 then file else file[..i]
  }

  /** `Path::extension`: the part after the last '.', under the same exceptions as `Stem`.
      A name with an extension is exactly its stem, a dot and the extension. */
  function Extension(file: string): (e: Option<string>)
    ensures e.Some? ==> Stem(file) != "" && file == Stem(file) + "." + e.value
    ensures e.Some? ==> forall k :: 0 <= k < |e.value| ==> e.value[k] != '.'
    ensures e.None? ==> Stem(file) == file
  {
    if file == ".." then None
    else match LastDot(file)
      case None => None
      case Some(i) =>
        if i == 0 then None
        else
          assert file == file[..i] + "." + file[i + 1..];
          Some(file[i + 1..])
  }

  /** The file name a project called `name` is stored under: `join(name)` followed by
      `set_extension("pman")`, which replaces any extension the name already has. */
  function FileName(name: string): string
  {
    Stem(name) + "." + ProjectFileExtension
  }

  /** `working_path.join(name)` with `set_extension(PROJECT_FILE_EXTENSION)`
      (src/services/project_s.rs:93-97, src/utils.rs:49-56). */
  function ProjectPath(dir: string, name: string): Path
  {
    Path(dir, FileName(name))
  }

  lemma StemOfNonEmpty(name: string)
    requires name != ""
    ensures Stem(name) != ""
  {
    if name != ".." {
      match LastDot(name)
      case None =>
      case Some(i) =>
    }
  }

  /** Every stored project file carries the extension the directory scan looks for, and
      setting the extension once more changes nothing. */
  lemma {:induction false} FileNameHasProjectExtension(name: string)
    requires name != ""
    ensures Extension(FileName(name)) == Some(ProjectFileExtension)
    ensures Stem(FileName(name)) == Stem(name)
    ensures FileName(FileName(name)) == FileName(name)
  {
    StemOfNonEmpty(name);
    var stem := Stem(name);
    var f := FileName(name);
    assert f[|stem|] == '.';
    assert forall k :: |stem| < k < |f| ==> f[k] != '.' by {
      assert f[|stem| + 1..] == ProjectFileExtension;
    }
    var d := LastDot(f);
    assert d == Some(|stem|);
    assert f[..|stem|] == stem;
    assert f[|stem| + 1..] == ProjectFileExtension;
  }

  // ---------------------------------------------------------------------------
  // The file system
  // ---------------------------------------------------------------------------

  datatype Content = Parsed(project: Project) | Unparsable
  datatype Node = File(content: Content) | Directory

  /** All paths with what they hold, and the order in which `read_dir` lists them (the
      order in which the entries were created or last renamed). */
  datatype Fs = Fs(nodes: map<Path, Node>, order: seq<Path>)

  /** The result of a call that changes the file system. */
  datatype Effect = Effect(fs: Fs, result: Result<()>)

  /** The listing order names every path once. */
  ghost predicate WellFormed(fs: Fs)
  {
    (forall i, j :: 0 <= i < j < |fs.order| ==> fs.order[i] != fs.order[j])
    && (forall p :: p in fs.nodes <==> p in fs.order)
  }

  ghost predicate Distinct(s: seq<Path>)
  {
    forall i, j :: 0 <= i < j < |s| ==> s[i] != s[j]
  }

  lemma DistinctInit(order: seq<Path>)
    requires order != []
    ensures Distinct(order) ==> Distinct(order[..|order| - 1])
    ensures Distinct(order) ==> order[|order| - 1] !in order[..|order| - 1]
  {
  }

  /** `order` without `p`. */
  function Without(order: seq<Path>, p: Path): (r: seq<Path>)
    ensures forall q :: q in r <==> q in order && q != p
    ensures Distinct(order) ==> Distinct(r)
  {
    if order == [] then []
    else if order[|order| - 1] == p then Without(order[..|order| - 1], p)
    else
      var init, last := order[..|order| - 1], order[|order| - 1];
      var rest := Without(init, p);
      assert forall q :: q in order <==> q in init || q == last by {
        assert order == init + [last];
      }
      DistinctInit(order);
      rest + [last]
  }

  /** `load_project_from_path` (src/structure/project.rs:51-59): the stored project, or the
      read or parse error. */
  function Load(fs: Fs, p: Path, o: Outcome): (r: Result<Project>)
    ensures r.Ok? <==> o.Succeed? && p in fs.nodes && fs.nodes[p].File? && fs.nodes[p].content.Parsed?
    ensures r.Ok? ==> fs.nodes[p] == File(Parsed(r.value))
    ensures r.Err? && o.Fail? ==> r.message == o.reason
  {
    if o.Fail? then Err(o.reason)
    else if p !in fs.nodes then Err(NotFoundMessage)
    else match fs.nodes[p]
      case Directory => Err(IsADirectoryMessage)
      case File(Unparsable) => Err(ParseErrorMessage)
      case File(Parsed(q)) => Ok(q)
  }

  /** `Project::write_project_full_path` (src/structure/project.rs:27-41): on success the
      path holds the project, created at the end of the listing if it was new; on failure
      nothing changes. */
  function Write(fs: Fs, p: Path, project: Project, o: Outcome): (e: Effect)
    ensures e.result.Ok? <==> o.Succeed? && !(p in fs.nodes && fs.nodes[p].Directory?)
    ensures e.result.Ok? ==> e.fs.nodes == fs.nodes[p := File(Parsed(project))]
    ensures e.result.Ok? ==> e.fs.order == if p in fs.nodes then fs.order else fs.order + [p]
    ensures e.result.Err? ==> e.fs == fs
    ensures e.result.Err? && o.Fail? ==> e.result.message == o.reason
  {
    if o.Fail? then Effect(fs, Err(o.reason))
    else if p in fs.nodes && fs.nodes[p].Directory? then Effect(fs, Err(IsADirectoryMessage))
    else
      var order := if p in fs.nodes then fs.order else fs.order + [p];
      Effect(Fs(fs.nodes[p := File(Parsed(project))], order), Ok(()))
  }

  /** `std::fs::remove_file`: only an existing file can be removed. */
  function Remove(fs: Fs, p: Path, o: Outcome): (e: Effect)
    ensures e.result.Ok? <==> o.Succeed? && p in fs.nodes && fs.nodes[p].File?
    ensures e.result.Ok? ==> e.fs.nodes == fs.nodes - {p} && e.fs.order == Without(fs.order, p)
    ensures e.result.Err? ==> e.fs == fs
    ensures e.result.Err? && o.Fail? ==> e.result.message == o.reason
  {
    if o.Fail? then Effect(fs, Err(o.reason))
    else if p !in fs.nodes then Effect(fs, Err(NotFoundMessage))
    else if fs.nodes[p].Directory? then Effect(fs, Err(IsADirectoryMessage))
    else Effect(Fs(fs.nodes - {p}, Without(fs.order, p)), Ok(()))
  }

  /** `std::fs::rename`: the entry moves to `to`, replacing a file already there. */
  function Rename(fs: Fs, from: Path, to: Path, o: Outcome): (e: Effect)
    ensures e.result.Ok? <==>
      && o.Succeed? && from in fs.nodes
      && !(from != to && to in fs.nodes && (fs.nodes[to].Directory? || fs.nodes[from].Directory?))
    ensures e.result.Ok? && from == to ==> e.fs == fs
    ensures e.result.Err? && o.Fail? ==> e.result.message == o.reason
    ensures e.result.Ok? && from != to ==>
      to in e.fs.nodes && e.fs.nodes[to] == fs.nodes[from] && from !in e.fs.nodes
    ensures e.result.Ok? ==> forall q :: q != from && q != to ==>
      (q in e.fs.nodes <==> q in fs.nodes) && (q in fs.nodes ==> e.fs.nodes[q] == fs.nodes[q])
    ensures e.result.Err? ==> e.fs == fs
  {
    if o.Fail? then Effect(fs, Err(o.reason))
    else if from !in fs.nodes then Effect(fs, Err(NotFoundMessage))
    else if from == to then Effect(fs, Ok(()))
    else if to in fs.nodes && fs.nodes[to].Directory? then Effect(fs, Err(IsADirectoryMessage))
    else if to in fs.nodes && fs.nodes[from].Directory? then Effect(fs, Err(NotADirectoryMessage))
    else
      var nodes := (fs.nodes - {from})[to := fs.nodes[from]];
      Effect(Fs(nodes, Without(Without(fs.order, from), to) + [to]), Ok(()))
  }

  lemma WritePreservesWellFormed(fs: Fs, p: Path, project: Project, o: Outcome)
    requires WellFormed(fs)
    ensures WellFormed(Write(fs, p, project, o).fs)
  {
  }

  lemma RemovePreservesWellFormed(fs: Fs, p: Path, o: Outcome)
    requires WellFormed(fs)
    ensures WellFormed(Remove(fs, p, o).fs)
  {
  }

  lemma RenamePreservesWellFormed(fs: Fs, from: Path, to: Path, o: Outcome)
    requires WellFormed(fs)
    ensures WellFormed(Rename(fs, from, to, o).fs)
  {
    var e := Rename(fs, from, to, o);
    if e.result.Ok? && from != to {
      var rest := Without(Without(fs.order, from), to);
      assert Distinct(rest);
      assert e.fs.order == rest + [to];
      assert forall i :: 0 <= i < |rest| ==> rest[i] != to;
    }
  }

  /** Loading a path right after a successful write of it gives back the project written. */
  lemma LoadAfterWrite(fs: Fs, p: Path, project: Project)
    requires Write(fs, p, project, Succeed).result.Ok?
    ensures Load(Write(fs, p, project, Succeed).fs, p, Succeed) == Ok(project)
  {
  }

  /** A rename followed by loading the new path gives what the old path held. */
  lemma LoadAfterRename(fs: Fs, from: Path, to: Path)
    requires Rename(fs, from, to, Succeed).result.Ok?
    ensures Load(Rename(fs, from, to, Succeed).fs, to, Succeed) == Load(fs, from, Succeed)
  {
  }

  // ---------------------------------------------------------------------------
  // Directory scan: get_projects_in_path (src/structure/project.rs:61-86)
  // ---------------------------------------------------------------------------

  /** One entry of `read_dir`: its file name and what it holds. */
  datatype DirEntry = DirEntry(file: string, node: Node)

  /** What `read_dir(dir)` yields, in listing order. */
  function ListingOf(nodes: map<Path, Node>, order: seq<Path>, dir: string): (r: seq<DirEntry>)
    ensures forall e :: e in r ==> Path(dir, e.file) in nodes && nodes[Path(dir, e.file)] == e.node
    ensures forall p :: p in order && p in nodes && p.dir == dir ==> DirEntry(p.file, nodes[p]) in r
  {
    if order == [] then []
    else
      var last := order[|order| - 1];
      var rest := ListingOf(nodes, order[..|order| - 1], dir);
      assert forall p :: p in order ==> p in order[..|order| - 1] || p == last by {
        assert order == order[..|order| - 1] + [last];
      }
      if last.dir == dir && last in nodes then rest + [DirEntry(last.file, nodes[last])] else rest
  }

  function Listing(fs: Fs, dir: string): seq<DirEntry>
  {
    ListingOf(fs.nodes, fs.order, dir)
  }

  /** The scan keeps an entry when it is a regular file with extension `pman` whose
      content parses. */
  predicate IsProjectEntry(e: DirEntry)
  {
    e.node.File? && Extension(e.file) == Some(ProjectFileExtension) && e.node.content.Parsed?
  }

  /** What the scan collects from `entries`, in listing order. */
  function ProjectsOf(entries: seq<DirEntry>): seq<Project>
  {
    if entries == [] then []
    else
      var last := entries[|entries| - 1];
      ProjectsOf(entries[..|entries| - 1]) + if IsProjectEntry(last) then [last.node.content.project] else []
  }

  /** The scan keeps exactly the project entries: every kept project comes from one, and
      every one contributes its project. */
  lemma {:induction false} ProjectsOfExactly(entries: seq<DirEntry>)
    ensures forall q :: q in ProjectsOf(entries) <==>
      exists e :: e in entries && IsProjectEntry(e) && e.node.content.project == q
    ensures |ProjectsOf(entries)| <= |entries|
  {
    if entries != [] {
      var init := entries[..|entries| - 1];
      var last := entries[|entries| - 1];
      ProjectsOfExactly(init);
      assert entries == init + [last];
      forall q | q in ProjectsOf(entries)
        ensures exists e :: e in entries && IsProjectEntry(e) && e.node.content.project == q
      {
        if q in ProjectsOf(init) {
          var e :| e in init && IsProjectEntry(e) && e.node.content.project == q;
          assert e in entries;
        } else {
          assert last in entries && IsProjectEntry(last) && last.node.content.project == q;
        }
      }
      forall q | exists e :: e in entries && IsProjectEntry(e) && e.node.content.project == q
        ensures q in ProjectsOf(entries)
      {
        var e :| e in entries && IsProjectEntry(e) && e.node.content.project == q;
        if e != last {
          assert e in init;
        }
      }
    }
  }

  /** `get_projects_in_path`: walk the listing and keep the projects that parse. */
  method GetProjectsInPath(fs: Fs, dir: string) returns (projects: seq<Project>)
    ensures projects == ProjectsOf(Listing(fs, dir))
  {
    var entries := Listing(fs, dir);
    projects := [];
    var i := 0;
    while i < |entries|
      invariant 0 <= i <= |entries|
      invariant projects == ProjectsOf(entries[..i])
    {
      var entry := entries[i];
      assert entries[..i + 1][..i] == entries[..i];
      if entry.node.File? && Extension(entry.file) == Some(ProjectFileExtension) {
        match entry.node.content
        case Parsed(project) => projects := projects + [project];
        case Unparsable =>
      }
      i := i + 1;
    }
    assert entries[..i] == entries;
  }

  /** A project written under its own name into `dir` shows up in the next scan of `dir`. */
  lemma WrittenProjectIsListed(fs: Fs, dir: string, project: Project, o: Outcome)
    requires WellFormed(fs) && project.name != ""
    requires Write(fs, ProjectPath(dir, project.name), project, o).result.Ok?
    ensures project in ProjectsOf(Listing(Write(fs, ProjectPath(dir, project.name), project, o).fs, dir))
  {
    var p := ProjectPath(dir, project.name);
    var after := Write(fs, p, project, o).fs;
    WritePreservesWellFormed(fs, p, project, o);
    FileNameHasProjectExtension(project.name);
    var e := DirEntry(p.file, File(Parsed(project)));
    assert e in Listing(after, dir);
    assert IsProjectEntry(e);
    ProjectsOfExactly(Listing(after, dir));
  }

  /** The file system outside the program, changed by the calls below. */
  class Disk {
    var fs: Fs

    ghost predicate Valid()
      reads this
    {
      WellFormed(fs)
    }

    constructor (initial: Fs)
      requires WellFormed(initial)
      ensures fs == initial && Valid()
    {
      fs := initial;
    }

    method WriteProject(p: Path, project: Project, o: Outcome) returns (r: Result<()>)
      requires Valid()
      modifies this
      ensures Valid()
      ensures Effect(fs, r) == Write(old(fs), p, project, o)
    {
      WritePreservesWellFormed(fs, p, project, o);
      var e := Write(fs, p, project, o);
      fs := e.fs;
      r := e.result;
    }

    method RemoveFile(p: Path, o: Outcome) returns (r: Result<()>)
      requires Valid()
      modifies this
      ensures Valid()
      ensures Effect(fs, r) == Remove(old(fs), p, o)
    {
      RemovePreservesWellFormed(fs, p, o);
      var e := Remove(fs, p, o);
      fs := e.fs;
      r := e.result;
    }

    method RenameFile(from: Path, to: Path, o: Outcome) returns (r: Result<()>)
      requires Valid()
      modifies this
      ensures Valid()
      ensures Effect(fs, r) == Rename(old(fs), from, to, o)
    {
      RenamePreservesWellFormed(fs, from, to, o);
      var e := Rename(fs, from, to, o);
      fs := e.fs;
      r := e.result;
    }
  }
}
