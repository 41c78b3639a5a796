/** The run queue of src/task.c: a growing ring of tasks, each queued at most once. */
module RunQueue {
  import opened Basics
  import opened Arithmetic
  import opened Tasks

  class TaskQueue {
    var tasks: array<Task?>
    var head: nat
    var tail: nat
    var count: nat
    /** The tasks in the queue, first to leave first. */
    ghost var contents: seq<Task>
    /** Every task this queue has been shown. */
    ghost var known: set<Task>

    ghost predicate Ring()
      reads this, tasks
    {
      && tasks.Length <= SIZE_MAX && |contents| == count <= tasks.Length
      && (if tasks.Length == 0 then head == tail == 0
          else head < tasks.Length && tail == Wrap(head + count, tasks.Length))
      && forall i :: 0 <= i < count ==> tasks[Wrap(head + i, tasks.Length)] == contents[i]
    }

    /** The ring holds `contents`, no task twice, and `queued` is set for exactly its members. */
    ghost predicate Valid()
      reads this, tasks, known
    {
      && Ring()
      && (forall i, j :: 0 <= i < j < |contents| ==> contents[i] != contents[j])
      && (forall t :: t in contents ==> t in known)
      && (forall t :: t in known ==> (t.queued <==> t in contents))
    }

    /** task_queue_init; a capacity of zero leaves a queue that refuses every task. */
    constructor (capacity: nat)
      requires capacity <= SIZE_MAX
      ensures Valid() && fresh(tasks) && tasks.Length == capacity && contents == [] && known == {}
    {
      tasks := new Task?[capacity](_ => null);
      head, tail, count := 0, 0, 0;
      contents, known := [], {};
    }

    predicate IsEmpty()
      reads this, tasks
    {
      tasks.Length == 0 || count == 0
    }

    predicate IsFull()
      reads this, tasks
    {
      tasks.Length != 0 && count == tasks.Length
    }

    /** task_queue_grow: twice the room, the same tasks in the same order, now from slot 0. */
    method Grow(memory: bool) returns (ok: bool)
      requires Valid()
      modifies this`tasks, this`head, this`tail
      ensures Valid() && (tasks == old(tasks) || fresh(tasks))
      ensures ok <==> memory && old(tasks.Length) <= SIZE_MAX / 2
      ensures if ok then tasks.Length == (if old(tasks.Length) == 0 then 1 else 2 * old(tasks.Length)) && head == 0
              else tasks == old(tasks) && head == old(head) && tail == old(tail)
    {
      if tasks.Length > SIZE_MAX / 2 {
        return false;
      }
      var newCapacity := if tasks.Length != 0 then tasks.Length * 2 else 1;
      if !memory {
        return false;
      }
      var newTasks := new Task?[newCapacity](_ => null);
      var i := 0;
      while i < count
        invariant 0 <= i <= count
        invariant forall k :: 0 <= k < i ==> newTasks[k] == contents[k]
        modifies newTasks
      {
        assert head + i <= SIZE_MAX;
        WrapIsMod(head + i, tasks.Length);
        newTasks[i] := tasks[(head + i) % tasks.Length];
        i := i + 1;
      }
      tasks := newTasks;
      head := 0;
      tail := count;
      return true;
    }

    /** task_queue_push: at the end, unless it is there already; `memory` says whether an allocation
        would succeed. */
    method Push(task: Task, memory: bool) returns (ok: bool)
      requires Valid() && (task !in known ==> !task.queued)
      modifies this, tasks, task`queued
      ensures Valid() && known == old(known) + {task} && (tasks == old(tasks) || fresh(tasks))
      ensures ok <==>
        && old(tasks.Length) > 0
        && (old(task.queued) || old(count < tasks.Length) || (memory && old(tasks.Length) <= SIZE_MAX / 2))
      ensures contents == if ok && !old(task.queued) then old(contents) + [task] else old(contents)
      ensures !memory || old(count < tasks.Length) ==> tasks == old(tasks)
    {
      known := known + {task};
      if tasks.Length == 0 {
        return false;
      }
      if task.queued {
        return true;
      }
      if IsFull() {
        var grown := Grow(memory);
        if !grown {
          return false;
        }
      }
      Append(task);
      return true;
    }

    method Append(task: Task)
      requires Valid() && task in known && !task.queued && count < tasks.Length
      modifies this`tail, this`count, this`contents, tasks, task`queued
      ensures Valid() && contents == old(contents) + [task]
    {
      WrapIsMod(tail + 1, tasks.Length);
      tasks[tail] := task;
      tail := (tail + 1) % tasks.Length;
      count := count + 1;
      contents := contents + [task];
      task.queued := true;
    }

    /** task_queue_pop. */
    method Pop() returns (ok: bool, task: Task?)
      requires Valid()
      modifies this`head, this`count, this`contents, known`queued
      ensures Valid()
      ensures ok <==> old(contents) != []
      ensures ok ==> task == old(contents)[0] && contents == old(contents)[1..] && !task.queued
      ensures ok ==> forall t :: t in known && t != task ==> t.queued == old(t.queued)
      ensures !ok ==> contents == old(contents) && task == null && forall t :: t in known ==> t.queued == old(t.queued)
    {
      if IsEmpty() {
        return false, null;
      }
      task := tasks[head];
      WrapIsMod(head + 1, tasks.Length);
      assert task == contents[0];
      head := (head + 1) % tasks.Length;
      count := count - 1;
      contents := contents[1..];
      task.queued := false;
      ok := true;
    }
  }
}
