/** A project: a named description with an active and a completed task list
    (src/structure/project.rs). */
module ProjectModel {
  import opened TaskModel

  datatype Project = Project(
    name: string,
    description: string,
    activeTasks: seq<Task>,
    completedTasks: seq<Task>)

  /** `Project::default()`. */
  const DefaultProject := Project("", "", [], [])

  const SampleDescription := "Sample description"

  /** `Project::new`. */
  function NewProject(name: string): (p: Project)
    ensures p.name == name && p.description == SampleDescription
    ensures p.activeTasks == [] && p.completedTasks == []
  {
    Project(name, "Sample description", [], [])
  }

  /** `TaskContainer::add_task` on a project: appends `Task::new(name, description)` to the
      active tasks; the completed tasks, name and description are untouched. */
  function AddTask(p: Project, name: string, description: string): (r: Project)
    ensures |r.activeTasks| == |p.activeTasks| + 1
    ensures r.activeTasks[..|p.activeTasks|] == p.activeTasks
    ensures r.activeTasks[|p.activeTasks|] == NewTask(name, description)
    ensures r.(activeTasks := p.activeTasks) == p
    ensures TaskCount(r) == TaskCount(p) + 1
  {
    p.(activeTasks := p.activeTasks + [NewTask(name, description)])
  }

  /** Total number of tasks the project holds. */
  function TaskCount(p: Project): nat
  {
    |p.activeTasks| + |p.completedTasks|
  }
}
