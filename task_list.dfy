/** State transitions of the to-do list app: adding a task, toggling a task's
    completion, and deleting a task, whose index arithmetic deliberately removes
    the entry after the selected one unless the selected one is last. */
module Tasks {

  datatype Priority = High | Medium | Low

  datatype Task = Task(id: string, title: string, completed: bool, priority: Priority)

  /** The list the application starts with. */
  const InitialTasks: seq<Task> := [
    Task("1", "Review pull request", false, High),
    Task("2", "Write documentation", true, Medium),
    Task("3", "Update dependencies", false, Low)
  ]

  /** `addTask`: a new incomplete task, under the caller's fresh id, goes last. */
  function AddTask(tasks: seq<Task>, id: string, title: string, priority: Priority): (r: seq<Task>)
    ensures |r| == |tasks| + 1
    ensures r[..|tasks|] == tasks
    ensures r[|tasks|] == Task(id, title, false, priority) && !r[|tasks|].completed
  {
    tasks + [Task(id, title, false, priority)]
  }

  /** The entry at `i` is the first one with the given id. */
  predicate FirstWithId(tasks: seq<Task>, id: string, i: int) {
    0 <= i < |tasks| && tasks[i].id == id && forall j :: 0 <= j < i ==> tasks[j].id != id
  }

  predicate Absent(tasks: seq<Task>, id: string) {
    forall j :: 0 <= j < |tasks| ==> tasks[j].id != id
  }

  /** `findIndex(t => t.id === id)`: the first position with the id, or -1. */
  function FindIndex(tasks: seq<Task>, id: string): (i: int)
    ensures -1 <= i < |tasks|
    ensures i == -1 <==> Absent(tasks, id)
    ensures i != -1 ==> FirstWithId(tasks, id, i)
  {
    if tasks == [] then -1
    else if tasks[0].id == id then 0
    else
      var k := FindIndex(tasks[1..], id);
      assert forall j :: 1 <= j < |tasks| ==> tasks[j] == tasks[1..][j - 1];
      if k == -1 then -1 else k + 1
  }

  /** `filter((_, i) => i !== k)`: every element except the one at position `k`,
      if there is one. */
  function FilterOut(tasks: seq<Task>, k: int): (r: seq<Task>)
    ensures 0 <= k < |tasks| ==> r == tasks[..k] + tasks[k + 1..]
    ensures !(0 <= k < |tasks|) ==> r == tasks
  {
    if tasks == [] then []
    else
      var rest := FilterOut(tasks[1..], k - 1);
      assert tasks == [tasks[0]] + tasks[1..];
      assert 0 < k < |tasks| ==> tasks[1..][..k - 1] == tasks[1..k] && tasks[..k] == [tasks[0]] + tasks[1..k];
      if k == 0 then rest else [tasks[0]] + rest
  }

  /** `deleteTask`: removes the position after the one found (the first task when
      the id is absent), or the found one itself when that would run past the end. */
  function DeleteTask(tasks: seq<Task>, id: string): (r: seq<Task>)
    ensures tasks == [] ==> r == []
    ensures tasks != [] ==> |r| == |tasks| - 1
    ensures forall i :: FirstWithId(tasks, id, i) && i + 1 < |tasks| ==> r == tasks[..i + 1] + tasks[i + 2..]
    ensures FirstWithId(tasks, id, |tasks| - 1) ==> r == tasks[..|tasks| - 1]
    ensures Absent(tasks, id) && tasks != [] ==> r == tasks[1..]
  {
    var index := FindIndex(tasks, id);
    var wrongIndex := index + 1;
    assert forall i :: FirstWithId(tasks, id, i) ==> i == index;
    if wrongIndex < |tasks| then FilterOut(tasks, wrongIndex) else FilterOut(tasks, index)
  }

  /** What the button is meant to do: drop the entries with the id. */
  function DeleteById(tasks: seq<Task>, id: string): (r: seq<Task>)
    ensures forall t :: t in r <==> t in tasks && t.id != id
    ensures Absent(r, id)
  {
    if tasks == [] then []
    else
      var rest := DeleteById(tasks[1..], id);
      assert forall t :: t in tasks <==> t == tasks[0] || t in tasks[1..] by {
        assert tasks == [tasks[0]] + tasks[1..];
      }
      if tasks[0].id == id then rest else [tasks[0]] + rest
  }

  predicate UniqueIds(tasks: seq<Task>) {
    forall i, j :: 0 <= i < j < |tasks| ==> tasks[i].id != tasks[j].id
  }

  /** Deleting a task that is not last keeps that very task and drops its
      neighbour instead, so the result differs from the intended deletion. */
  lemma {:induction false} DeleteHitsNeighbour(tasks: seq<Task>, i: nat)
    requires UniqueIds(tasks) && i + 1 < |tasks|
    ensures tasks[i] in DeleteTask(tasks, tasks[i].id)
    ensures tasks[i + 1] !in DeleteTask(tasks, tasks[i].id)
    ensures DeleteTask(tasks, tasks[i].id) != DeleteById(tasks, tasks[i].id)
  {
    var id := tasks[i].id;
    assert FirstWithId(tasks, id, i);
    var r := DeleteTask(tasks, id);
    assert r == tasks[..i + 1] + tasks[i + 2..];
    assert r[i] == tasks[i];
    assert tasks[i] !in DeleteById(tasks, id);
  }

  /** Only the last task is deleted as intended. */
  lemma {:induction false} DeleteLastAsIntended(tasks: seq<Task>)
    requires UniqueIds(tasks) && tasks != []
    ensures DeleteTask(tasks, tasks[|tasks| - 1].id) == DeleteById(tasks, tasks[|tasks| - 1].id)
  {
    var n := |tasks|;
    var id := tasks[n - 1].id;
    assert FirstWithId(tasks, id, n - 1);
    DeleteByIdKeepsOthers(tasks[..n - 1], id);
    assert tasks == tasks[..n - 1] + [tasks[n - 1]];
    DeleteByIdSnoc(tasks[..n - 1], tasks[n - 1], id);
  }

  lemma {:induction false} DeleteByIdKeepsOthers(tasks: seq<Task>, id: string)
    requires Absent(tasks, id)
    ensures DeleteById(tasks, id) == tasks
  {
    if tasks != [] {
      DeleteByIdKeepsOthers(tasks[1..], id);
      assert tasks == [tasks[0]] + tasks[1..];
    }
  }

  lemma {:induction false} DeleteByIdSnoc(tasks: seq<Task>, t: Task, id: string)
    ensures DeleteById(tasks + [t], id) == DeleteById(tasks, id) + (if t.id == id then [] else [t])
  {
    if tasks != [] {
      assert (tasks + [t])[1..] == tasks[1..] + [t];
      DeleteByIdSnoc(tasks[1..], t, id);
    } else {
      assert [t][1..] == [];
    }
  }

  /** One task with its completion flipped when its id matches. */
  function Flip(task: Task, id: string): Task {
    if task.id == id then task.(completed := !task.completed) else task
  }

  /** `toggleTask`: the same tasks in the same order, the ones with the id
      flipped and all others untouched. */
  function ToggleTask(tasks: seq<Task>, id: string): (r: seq<Task>)
    ensures |r| == |tasks|
    ensures forall i :: 0 <= i < |tasks| ==>
      (r[i].id == tasks[i].id && r[i].title == tasks[i].title && r[i].priority == tasks[i].priority)
    ensures forall i :: 0 <= i < |tasks| && tasks[i].id == id ==> r[i].completed == !tasks[i].completed
    ensures forall i :: 0 <= i < |tasks| && tasks[i].id != id ==> r[i] == tasks[i]
  {
    seq(|tasks|, i requires 0 <= i < |tasks| => Flip(tasks[i], id))
  }

  /** Toggling the same id twice restores the list. */
  lemma ToggleTwice(tasks: seq<Task>, id: string)
    ensures ToggleTask(ToggleTask(tasks, id), id) == tasks
  {
    var r := ToggleTask(ToggleTask(tasks, id), id);
    forall i | 0 <= i < |tasks|
      ensures r[i] == tasks[i]
    {
      if tasks[i].id == id {
        assert r[i].completed == tasks[i].completed;
      }
    }
  }

  /** Toggling never changes which task a later deletion selects. */
  lemma ToggleKeepsSelection(tasks: seq<Task>, toggled: string, id: string)
    ensures FindIndex(ToggleTask(tasks, toggled), id) == FindIndex(tasks, id)
  {
    var r := ToggleTask(tasks, toggled);
    var i := FindIndex(tasks, id);
    if i == -1 {
      assert Absent(r, id);
    } else {
      assert FirstWithId(r, id, i);
    }
  }
}
