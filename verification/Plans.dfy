/** Task plans: dependency sorting by depth-first search, merging new tasks, and finishing tasks one by one. */
module Plans {
  import opened Results
  import opened Sequences
  import opened Walks

  class Task {
    const id: string
    const dependencies: seq<string>
    const instruction: string
    var finished: bool

    constructor (id: string, dependencies: seq<string>, instruction: string)
      ensures this.id == id && this.dependencies == dependencies && this.instruction == instruction
      ensures !finished
    {
      this.id, this.dependencies, this.instruction := id, dependencies, instruction;
      finished := false;
    }
  }

  function TaskIds(tasks: seq<Task>): (ids: seq<string>)
    ensures |ids| == |tasks|
    ensures forall i :: 0 <= i < |tasks| ==> ids[i] == tasks[i].id
  {
    seq(|tasks|, i requires 0 <= i < |tasks| => tasks[i].id)
  }

  /** Tasks by id; a later task with the same id replaces an earlier one. */
  function TaskMap(tasks: seq<Task>): map<string, Task> {
    if tasks == [] then map[]
    else
      var last := tasks[|tasks| - 1];
      TaskMap(tasks[..|tasks| - 1])[last.id := last]
  }

  lemma {:induction false} TaskMapFacts(tasks: seq<Task>)
    ensures forall id :: id in TaskMap(tasks) ==> TaskMap(tasks)[id] in tasks && TaskMap(tasks)[id].id == id
    ensures TaskMap(tasks).Keys == Elems(TaskIds(tasks))
  {
    if tasks != [] {
      var front := tasks[..|tasks| - 1];
      var last := tasks[|tasks| - 1];
      TaskMapFacts(front);
      assert TaskIds(tasks) == TaskIds(front) + [last.id];
      Snoc(TaskIds(front), last.id);
      assert tasks == front + [last];
    }
  }

  lemma {:induction false} TaskMapOfDistinct(tasks: seq<Task>, k: nat)
    requires Distinct(TaskIds(tasks)) && k < |tasks|
    ensures tasks[k].id in TaskMap(tasks) && TaskMap(tasks)[tasks[k].id] == tasks[k]
    decreases |tasks|
  {
    var front := tasks[..|tasks| - 1];
    var last := tasks[|tasks| - 1];
    if k < |front| {
      assert TaskIds(tasks) == TaskIds(front) + [last.id];
      Snoc(TaskIds(front), last.id);
      TaskMapOfDistinct(front, k);
      assert TaskIds(tasks)[k] != TaskIds(tasks)[|front|];
    }
  }

  /** Arcs from a dependency to its dependent, among the tasks of the map only. */
  ghost function DependencyArcs(m: map<string, Task>): set<(string, string)> {
    set id, d | id in m && d in m[id].dependencies && d in m :: (d, id)
  }

  /** Every dependency that is itself in the map stands before its dependent. */
  ghost predicate DependenciesFirst(m: map<string, Task>, tasks: seq<Task>) {
    forall k, d :: 0 <= k < |tasks| && d in tasks[k].dependencies && d in m ==> d in TaskIds(tasks)[..k]
  }

  /** The mutable state of one depth-first sort. */
  class Sorter {
    const taskMap: map<string, Task>
    var visited: set<string>
    var path: set<string>
    var ordered: seq<Task>

    ghost predicate Valid()
      reads this
    {
      && (forall id :: id in taskMap ==> taskMap[id].id == id)
      && path <= taskMap.Keys && visited <= taskMap.Keys && path !! visited
      && Distinct(TaskIds(ordered)) && Elems(TaskIds(ordered)) == visited
      && (forall t :: t in ordered ==> t.id in taskMap && taskMap[t.id] == t)
      && DependenciesFirst(taskMap, ordered)
    }

    constructor (tasks: seq<Task>)
      ensures Valid() && taskMap == TaskMap(tasks) && path == {} && visited == {} && ordered == []
    {
      TaskMapFacts(tasks);
      taskMap := TaskMap(tasks);
      visited, path, ordered := {}, {}, [];
    }

    /** Emits a task after its dependencies. Raises when the task is already on the current path. */
    method Visit(id: string, ghost stack: seq<string>) returns (cyclic: bool)
      requires Valid() && id in taskMap
      requires IsWalk(DependencyArcs(taskMap), [id] + stack) && Elems(stack) == path
      modifies this`visited, this`path, this`ordered
      ensures cyclic ==> HasCycle(DependencyArcs(taskMap))
      ensures !cyclic ==> Valid() && path == old(path) && id in visited && old(visited) <= visited
      decreases taskMap.Keys - path
    {
      if id in visited {
        return false;
      }
      if id in path {
        CloseCycle(DependencyArcs(taskMap), id, stack, IndexOf(stack, id));
        return true;
      }
      path := path + {id};
      var task := taskMap[id];
      ghost var here := [id] + stack;
      assert Elems(here) == path;
      for k := 0 to |task.dependencies|
        invariant Valid() && path == old(path) + {id} && old(visited) <= visited
        invariant forall i :: 0 <= i < k && task.dependencies[i] in taskMap ==> task.dependencies[i] in visited
      {
        var d := task.dependencies[k];
        if d in taskMap {
          assert (d, id) in DependencyArcs(taskMap);
          WalkConsFront(DependencyArcs(taskMap), d, here);
          cyclic := Visit(d, here);
          if cyclic {
            return;
          }
        }
      }
      path := path - {id};
      visited := visited + {id};
      AppendTask(taskMap, ordered, task);
      ordered := ordered + [task];
      cyclic := false;
    }
  }

  lemma AppendTask(m: map<string, Task>, ordered: seq<Task>, task: Task)
    requires DependenciesFirst(m, ordered) && Distinct(TaskIds(ordered)) && task.id !in TaskIds(ordered)
    requires forall d :: d in task.dependencies && d in m ==> d in Elems(TaskIds(ordered))
    ensures DependenciesFirst(m, ordered + [task]) && Distinct(TaskIds(ordered + [task]))
    ensures Elems(TaskIds(ordered + [task])) == Elems(TaskIds(ordered)) + {task.id}
  {
    var all := ordered + [task];
    assert TaskIds(all) == TaskIds(ordered) + [task.id];
    Snoc(TaskIds(ordered), task.id);
    forall k, d | 0 <= k < |all| && d in all[k].dependencies && d in m ensures d in TaskIds(all)[..k] {
      if k < |ordered| {
        assert TaskIds(all)[..k] == TaskIds(ordered)[..k];
        assert all[k] == ordered[k];
      } else {
        assert TaskIds(all)[..k] == TaskIds(ordered);
      }
    }
  }

  /** Each distinct id once, as last declared, with in-list dependencies before dependents. */
  ghost predicate Sorted(m: map<string, Task>, sorted: seq<Task>) {
    && Distinct(TaskIds(sorted)) && Elems(TaskIds(sorted)) == m.Keys
    && (forall t :: t in sorted ==> t.id in m && m[t.id] == t)
    && DependenciesFirst(m, sorted)
  }

  lemma DependencyBefore(m: map<string, Task>, sorted: seq<Task>, a: string, b: string)
    requires Sorted(m, sorted) && (a, b) in DependencyArcs(m)
    ensures a in TaskIds(sorted) && b in TaskIds(sorted)
    ensures IndexOf(TaskIds(sorted), a) < IndexOf(TaskIds(sorted), b)
  {
    var ids := TaskIds(sorted);
    assert b in Elems(ids);
    var k := IndexOf(ids, b);
    assert sorted[k] in sorted;
    assert a in ids[..k];
    var j :| 0 <= j < k && ids[j] == a;
    IndexIsFirst(ids, a, j);
  }

  lemma {:induction false} SortedMeansAcyclic(m: map<string, Task>, sorted: seq<Task>)
    requires Sorted(m, sorted)
    ensures !HasCycle(DependencyArcs(m))
  {
    forall a, b | (a, b) in DependencyArcs(m)
      ensures a in TaskIds(sorted) && b in TaskIds(sorted) && IndexOf(TaskIds(sorted), a) < IndexOf(TaskIds(sorted), b)
    {
      DependencyBefore(m, sorted, a, b);
    }
    TopologicalMeansAcyclic(DependencyArcs(m), TaskIds(sorted));
  }

  /** Sorts by dependencies. Raises exactly when the dependencies among the given ids contain a cycle. */
  method TopologicalSort(tasks: seq<Task>) returns (r: Option<seq<Task>>)
    ensures r.None? <==> HasCycle(DependencyArcs(TaskMap(tasks)))
    ensures r.Some? ==> Sorted(TaskMap(tasks), r.value)
  {
    var sorter := new Sorter(tasks);
    ghost var m := sorter.taskMap;
    TaskMapFacts(tasks);
    assert Elems<string>([]) == {};
    for k := 0 to |tasks|
      invariant sorter.Valid() && sorter.path == {} && fresh(sorter)
      invariant Elems(TaskIds(tasks)[..k]) <= sorter.visited
    {
      assert TaskIds(tasks)[..k + 1] == TaskIds(tasks)[..k] + [tasks[k].id];
      Snoc(TaskIds(tasks)[..k], tasks[k].id);
      assert tasks[k].id in Elems(TaskIds(tasks));
      var cyclic := sorter.Visit(tasks[k].id, []);
      if cyclic {
        return None;
      }
    }
    assert TaskIds(tasks)[..|tasks|] == TaskIds(tasks);
    SortedMeansAcyclic(m, sorter.ordered);
    r := Some(sorter.ordered);
  }

  // ---- the plan ----------------------------------------------------------------------------

  /** What a plan shows of one task. */
  datatype Mark = Mark(id: string, finished: bool)

  function FirstUnfinished(marks: seq<Mark>): (i: nat)
    ensures i <= |marks|
    ensures i < |marks| ==> !marks[i].finished
    ensures forall k :: 0 <= k < i ==> marks[k].finished
  {
    if marks == [] || !marks[0].finished then 0 else 1 + FirstUnfinished(marks[1..])
  }

  function CurrentId(marks: seq<Mark>): string {
    if FirstUnfinished(marks) < |marks| then marks[FirstUnfinished(marks)].id else ""
  }

  /**
   * Finishing the current task. An unfinished task whose id is the empty string cannot be told from "no current task".
   */
  function FinishMarks(marks: seq<Mark>): seq<Mark> {
    var i := FirstUnfinished(marks);
    if i < |marks| && marks[i].id != "" then marks[i := Mark(marks[i].id, true)] else marks
  }

  function FinishTimes(marks: seq<Mark>, n: nat): seq<Mark>
    decreases n
  {
    if n == 0 then marks else FinishTimes(FinishMarks(marks), n - 1)
  }

  function Unfinished(marks: seq<Mark>): nat {
    if marks == [] then 0 else (if marks[0].finished then 0 else 1) + Unfinished(marks[1..])
  }

  ghost predicate FinishedPrefix(marks: seq<Mark>) {
    forall i, j :: 0 <= i < j < |marks| && marks[j].finished ==> marks[i].finished
  }

  ghost predicate AllFinished(marks: seq<Mark>) {
    forall m :: m in marks ==> m.finished
  }

  lemma {:induction false} FinishCounts(marks: seq<Mark>)
    ensures Unfinished(FinishMarks(marks)) ==
      Unfinished(marks) - if FirstUnfinished(marks) < |marks| && CurrentId(marks) != "" then 1 else 0
  {
    if marks != [] && marks[0].finished {
      FinishCounts(marks[1..]);
      assert FinishMarks(marks) == [marks[0]] + FinishMarks(marks[1..]);
    } else if marks != [] && marks[0].id != "" {
      assert FinishMarks(marks) == [Mark(marks[0].id, true)] + marks[1..];
    }
  }

  lemma {:induction false} UnfinishedZero(marks: seq<Mark>)
    ensures Unfinished(marks) == 0 <==> AllFinished(marks)
  {
    if marks != [] {
      UnfinishedZero(marks[1..]);
      assert marks == [marks[0]] + marks[1..];
    }
  }

  /** Finishing keeps finished tasks a prefix, and never touches a nameless task. */
  lemma FinishKeeps(marks: seq<Mark>)
    ensures FinishedPrefix(marks) ==> FinishedPrefix(FinishMarks(marks))
    ensures Mark("", false) in marks <==> Mark("", false) in FinishMarks(marks)
  {
    var next := FinishMarks(marks);
    assert |next| == |marks| && forall i :: 0 <= i < |marks| ==> next[i].id == marks[i].id;
    var i := FirstUnfinished(marks);
    if i < |marks| && marks[i].id != "" {
      assert forall k :: 0 <= k < |marks| && k != i ==> next[k] == marks[k];
      if Mark("", false) in marks {
        var k :| 0 <= k < |marks| && marks[k] == Mark("", false);
        assert next[k] == marks[k];
      }
    }
  }

  /**
   * Finishing the current task as often as tasks are unfinished completes the plan exactly when every unfinished task
   * has a name.
   */
  lemma {:induction false} FinishingCompletes(marks: seq<Mark>)
    ensures AllFinished(FinishTimes(marks, Unfinished(marks))) <==> Mark("", false) !in marks
    decreases Unfinished(marks)
  {
    UnfinishedZero(marks);
    if Unfinished(marks) > 0 {
      FinishKeeps(marks);
      FinishCounts(marks);
      if FirstUnfinished(marks) < |marks| && CurrentId(marks) != "" {
        FinishingCompletes(FinishMarks(marks));
      } else {
        assert FinishMarks(marks) == marks;
        Stuck(marks, Unfinished(marks));
      }
    }
  }

  lemma {:induction false} Stuck(marks: seq<Mark>, n: nat)
    requires FinishMarks(marks) == marks
    ensures FinishTimes(marks, n) == marks
  {
    if n > 0 {
      Stuck(marks, n - 1);
    }
  }

  /** One unfinished task with an empty id keeps its plan from ever finishing. */
  lemma {:induction false} NamelessTaskNeverFinishes(n: nat)
    ensures Unfinished([Mark("", false)]) == 1
    ensures !AllFinished(FinishTimes([Mark("", false)], n))
  {
    var marks := [Mark("", false)];
    assert FinishMarks(marks) == marks;
    Stuck(marks, n);
    assert marks[0] in marks;
  }

  function Marks(tasks: seq<Task>): (marks: seq<Mark>)
    reads tasks
    ensures |marks| == |tasks|
    ensures forall i :: 0 <= i < |tasks| ==> marks[i] == Mark(tasks[i].id, tasks[i].finished)
  {
    seq(|tasks|, i requires 0 <= i < |tasks| reads tasks => Mark(tasks[i].id, tasks[i].finished))
  }

  predicate SameWork(a: Task, b: Task) {
    a.id == b.id && a.instruction == b.instruction
  }

  /** n is the number of leading positions, as many as possible, at which both lists hold the same work. */
  ghost predicate CommonPrefix(have: seq<Task>, want: seq<Task>, n: nat) {
    && n <= |have| && n <= |want|
    && (forall i :: 0 <= i < n ==> have[i].id == want[i].id && have[i].instruction == want[i].instruction)
    && (n < |have| && n < |want| ==> have[n].id != want[n].id || have[n].instruction != want[n].instruction)
  }

  method CommonPrefixLength(have: seq<Task>, want: seq<Task>) returns (n: nat)
    ensures CommonPrefix(have, want, n)
  {
    n := 0;
    while n < |have| && n < |want| && SameWork(have[n], want[n])
      invariant 0 <= n <= |have| && n <= |want|
      invariant forall i :: 0 <= i < n ==> SameWork(have[i], want[i])
    {
      n := n + 1;
    }
  }

  /** The plan after an accepted addition: the agreeing part is kept, the rest comes from the sorted tasks. */
  ghost predicate Merged(before: seq<Task>, sorted: seq<Task>, merged: seq<Task>) {
    exists n: nat :: CommonPrefix(before, sorted, n) && merged == before[..n] + sorted[n..]
  }

  lemma {:induction false} MergedIds(before: seq<Task>, sorted: seq<Task>, merged: seq<Task>)
    requires Merged(before, sorted, merged)
    ensures TaskIds(merged) == TaskIds(sorted)
  {
    var n: nat :| CommonPrefix(before, sorted, n) && merged == before[..n] + sorted[n..];
    assert forall i :: 0 <= i < n ==> merged[i] == before[i];
    assert forall i :: n <= i < |merged| ==> merged[i] == sorted[i];
  }

  ghost predicate Fresh(tasks: seq<Task>)
    reads tasks
  {
    forall t :: t in tasks ==> !t.finished
  }

  lemma SortedFresh(added: seq<Task>, sorted: seq<Task>)
    requires Sorted(TaskMap(added), sorted) && Fresh(added)
    ensures Fresh(sorted)
  {
    TaskMapFacts(added);
  }

  /** Sorting declares for the plan what it declared for the whole list. */
  lemma {:induction false} SortedDeclares(m: map<string, Task>, sorted: seq<Task>)
    requires Sorted(m, sorted)
    ensures DependenciesFirst(TaskMap(sorted), sorted)
  {
    TaskMapFacts(sorted);
  }

  class Plan {
    var tasks: seq<Task>
    var taskMap: map<string, Task>
    var currentId: string
    /** The sorted tasks of the last addition: how the dependencies were last declared. */
    ghost var declared: seq<Task>

    ghost predicate Valid()
      reads this, tasks
    {
      && Distinct(TaskIds(tasks)) && TaskIds(declared) == TaskIds(tasks)
      && DependenciesFirst(TaskMap(declared), declared)
      && taskMap == TaskMap(tasks)
      && currentId == CurrentId(Marks(tasks))
    }

    constructor ()
      ensures Valid() && tasks == []
    {
      tasks, taskMap, currentId := [], map[], "";
      declared := [];
    }

    method UpdateCurrentTask()
      modifies this`taskMap, this`currentId
      ensures taskMap == TaskMap(tasks) && currentId == CurrentId(Marks(tasks))
    {
      taskMap := TaskMap(tasks);
      var current := "";
      var k := 0;
      while k < |tasks|
        invariant 0 <= k <= |tasks| && current == ""
        invariant forall i :: 0 <= i < k ==> Marks(tasks)[i].finished
      {
        if !tasks[k].finished {
          current := tasks[k].id;
          break;
        }
        k := k + 1;
      }
      assert FirstUnfinished(Marks(tasks)) == k;
      currentId := current;
    }

    /** Replaces the tasks beyond the part that agrees with the sorted ones. */
    method Merge(sorted: seq<Task>)
      modifies this`tasks
      ensures Merged(old(tasks), sorted, tasks)
    {
      var n := CommonPrefixLength(tasks, sorted);
      tasks := tasks[..n] + sorted[n..];
    }

    /** Sorts the new tasks, keeps the part of the plan they agree with, and replaces the rest. */
    method AddTasks(added: seq<Task>) returns (cyclic: bool)
      requires Valid()
      modifies this
      ensures Valid()
      ensures cyclic <==> added != [] && HasCycle(DependencyArcs(TaskMap(added)))
      ensures cyclic || added == [] ==> tasks == old(tasks) && declared == old(declared)
      ensures !cyclic && added != [] ==> Sorted(TaskMap(added), declared) && Merged(old(tasks), declared, tasks)
    {
      if added == [] {
        return false;
      }
      var r := TopologicalSort(added);
      if r.None? {
        return true;
      }
      ghost var before := tasks;
      Merge(r.value);
      declared := r.value;
      MergedIds(before, declared, tasks);
      SortedDeclares(TaskMap(added), declared);
      UpdateCurrentTask();
      cyclic := false;
    }

    method MarkCurrent()
      requires Valid()
      modifies tasks
      ensures Marks(tasks) == FinishMarks(old(Marks(tasks)))
    {
      ghost var i := FirstUnfinished(Marks(tasks));
      if i < |tasks| {
        TaskMapOfDistinct(tasks, i);
      }
      if currentId != "" && currentId in taskMap {
        OnlyAt(tasks, i);
        var task := taskMap[currentId];
        assert task == tasks[i];
        task.finished := true;
      }
    }

    /** Marks the current task finished and moves on to the next one. */
    method FinishCurrentTask() returns (current: Option<Task>)
      requires Valid()
      modifies this, tasks
      ensures Valid() && tasks == old(tasks) && declared == old(declared)
      ensures Marks(tasks) == FinishMarks(old(Marks(tasks)))
      ensures current == if currentId in taskMap then Some(taskMap[currentId]) else None
    {
      MarkCurrent();
      UpdateCurrentTask();
      current := if currentId in taskMap then Some(taskMap[currentId]) else None;
    }

    method IsFinished() returns (finished: bool)
      ensures finished <==> tasks != [] && AllFinished(Marks(tasks))
    {
      finished := tasks != [] && forall i :: 0 <= i < |tasks| ==> tasks[i].finished;
      assert finished ==> forall i :: 0 <= i < |tasks| ==> Marks(tasks)[i].finished;
      if tasks != [] && !finished {
        var i :| 0 <= i < |tasks| && !tasks[i].finished;
        assert Marks(tasks)[i] in Marks(tasks);
      }
    }
  }

  lemma OnlyAt(tasks: seq<Task>, i: nat)
    requires Distinct(TaskIds(tasks)) && i < |tasks|
    ensures forall k :: 0 <= k < |tasks| && k != i ==> tasks[k] != tasks[i]
  {
    forall k | 0 <= k < |tasks| && k != i ensures tasks[k] != tasks[i] {
      assert TaskIds(tasks)[k] != TaskIds(tasks)[i];
    }
  }

  // ---- whole histories ---------------------------------------------------------------------

  ghost predicate Keeps(before: seq<Mark>, after: seq<Mark>, n: nat) {
    && n <= |before| && n <= |after| && after[..n] == before[..n]
    && forall k :: n <= k < |after| ==> !after[k].finished
  }

  /** What an addition of fresh tasks does to the marks: some positions stay, the rest is unfinished. */
  ghost predicate Refreshed(before: seq<Mark>, after: seq<Mark>) {
    exists n: nat :: Keeps(before, after, n)
  }

  lemma {:induction false} FreshAdditionRefreshes(
    before: seq<Task>, added: seq<Task>, sorted: seq<Task>, merged: seq<Task>)
    requires Sorted(TaskMap(added), sorted) && Merged(before, sorted, merged) && Fresh(added)
    ensures Refreshed(Marks(before), Marks(merged))
  {
    SortedFresh(added, sorted);
    var n: nat :| CommonPrefix(before, sorted, n) && merged == before[..n] + sorted[n..];
    forall k | n <= k < |merged| ensures !Marks(merged)[k].finished {
      assert merged[k] == sorted[k] && sorted[k] in sorted;
    }
    assert Marks(merged)[..n] == Marks(before)[..n];
    assert Keeps(Marks(before), Marks(merged), n);
  }

  /** A plan's history: it starts empty, and each step adds fresh tasks or finishes the current one. */
  ghost predicate History(plans: seq<seq<Mark>>) {
    && plans != [] && plans[0] == []
    && forall k :: 0 < k < |plans| ==> Refreshed(plans[k - 1], plans[k]) || plans[k] == FinishMarks(plans[k - 1])
  }

  lemma RefreshedKeepsPrefix(before: seq<Mark>, after: seq<Mark>)
    requires FinishedPrefix(before) && Refreshed(before, after)
    ensures FinishedPrefix(after)
  {
    var n: nat :| Keeps(before, after, n);
    forall i, j | 0 <= i < j < |after| && after[j].finished ensures after[i].finished {
      assert j < n;
      assert after[..n][i] == before[i] && after[..n][j] == before[j];
    }
  }

  /**
   * After any additions of fresh tasks and any finishing of current ones, the finished tasks are a prefix of the plan.
   */
  lemma {:induction false} FinishedIsPrefix(plans: seq<seq<Mark>>, k: nat)
    requires History(plans) && k < |plans|
    ensures FinishedPrefix(plans[k])
  {
    if k > 0 {
      FinishedIsPrefix(plans, k - 1);
      FinishKeeps(plans[k - 1]);
      if Refreshed(plans[k - 1], plans[k]) {
        RefreshedKeepsPrefix(plans[k - 1], plans[k]);
      }
    }
  }

  /** The current task has every dependency that is in the plan, as last declared, finished. */
  lemma {:induction false} CurrentIsReady(plan: Plan, d: string)
    requires plan.Valid() && FirstUnfinished(Marks(plan.tasks)) < |plan.tasks|
    requires d in plan.declared[FirstUnfinished(Marks(plan.tasks))].dependencies && d in plan.taskMap
    ensures plan.taskMap[d].finished
  {
    var i := FirstUnfinished(Marks(plan.tasks));
    var ids := TaskIds(plan.declared);
    TaskMapFacts(plan.tasks);
    TaskMapFacts(plan.declared);
    assert d in ids[..i];
    var j :| 0 <= j < i && ids[j] == d;
    TaskMapOfDistinct(plan.tasks, j);
    assert TaskIds(plan.tasks)[j] == d;
    assert Marks(plan.tasks)[j].finished;
  }
}
