/** A task and its sub-tasks (src/structure/task.rs). */
module TaskModel {
  /** The program stores `time_spent` and `estimate` as `i32` and never computes with them. */
  newtype i32 = x: int | -0x8000_0000 <= x < 0x8000_0000

  datatype Task = Task(
    name: string,
    description: string,
    timeSpent: i32,
    estimate: i32,
    subTasks: seq<Task>,
    tags: seq<string>)

  /** `Task::new`: the given name and description, zero counters, no sub-tasks, no tags. */
  function NewTask(name: string, description: string): (t: Task)
    ensures t.name == name && t.description == description
    ensures t.timeSpent == 0 && t.estimate == 0
    ensures t.subTasks == [] && t.tags == []
  {
    Task(name, description, 0, 0, [], [])
  }

  /** `TaskContainer::add_task` on a task: one new sub-task at the end, all else unchanged. */
  function AddSubTask(t: Task, name: string, description: string): (r: Task)
    ensures |r.subTasks| == |t.subTasks| + 1
    ensures r.subTasks[..|t.subTasks|] == t.subTasks
    ensures r.subTasks[|t.subTasks|] == NewTask(name, description)
    ensures r.(subTasks := t.subTasks) == t
  {
    var sub := Task(name, description, 0, 0, [], []);
    t.(subTasks := t.subTasks + [sub])
  }

  /** `InformationDisplay::get_description`. */
  function GetDescription(t: Task): (d: string)
    ensures d == t.description
  {
    t.description
  }

  /** `InformationDisplay::get_name`: it returns the description, not the name. */
  function GetName(t: Task): (n: string)
    ensures n == GetDescription(t)
    ensures t.name != t.description ==> n != t.name
  {
    t.description
  }

  /** `Vec::remove(i)` on a task list: the item at `i` goes, the later ones move up. */
  function RemoveAt<T>(s: seq<T>, i: nat): (r: seq<T>)
    requires i < |s|
    ensures |r| == |s| - 1
    ensures forall j :: 0 <= j < i ==> r[j] == s[j]
    ensures forall j :: i <= j < |r| ==> r[j] == s[j + 1]
    ensures multiset(r) + multiset{s[i]} == multiset(s)
  {
    assert s == s[..i] + [s[i]] + s[i + 1..];
    s[..i] + s[i + 1..]
  }
}
