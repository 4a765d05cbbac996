/**
 * The roadmap page's task views: a roadmap's progress, its tasks grouped
 * by phase, and the request a click on a task sends.
 */
module RoadmapsPage {
  import opened Js
  import opened ZodSchemas
  import opened Arith

  /** A `RoadmapTask` as the page shows it. */
  datatype Task = Task(id: string, title: string, description: string, isCompleted: bool, phase: string)

  // ---------------------------------------------------------------------
  // Progress

  /** `tasks.filter(task => task.isCompleted).length`. */
  function CompletedCount(tasks: seq<Task>): (n: nat)
    ensures n <= |tasks|
  {
    if tasks == [] then 0 else (if tasks[0].isCompleted then 1 else 0) + CompletedCount(tasks[1..])
  }

  /**
   * `Math.round(completed / total * 100)` on exact fractions: round half
   * up is floor(x + 1/2), and floor((200c + n) / 2n) is that for x = 100c/n.
   */
  function RoundedPercent(completed: nat, total: nat): (p: nat)
    requires 0 < total && completed <= total
    ensures p <= 100
  {
    DivMonotone(200 * completed + total, 200 * total + total, 2 * total);
    QuotientIs(200 * total + total, 2 * total, 100);
    (200 * completed + total) / (2 * total)
  }

  /** `getProgressPercentage`; a roadmap without tasks is left out (the page divides by zero there). */
  function ProgressPercentage(tasks: seq<Task>): (p: nat)
    requires |tasks| > 0
    ensures p <= 100
  {
    RoundedPercent(CompletedCount(tasks), |tasks|)
  }

  /** The rounding is to the nearest percent, halves upward. */
  lemma RoundedPercentNearest(completed: nat, total: nat)
    requires 0 < total && completed <= total
    ensures 2 * total * RoundedPercent(completed, total) <= 200 * completed + total
    ensures 200 * completed + total < 2 * total * (RoundedPercent(completed, total) + 1)
  {
  }

  /** Nothing done is 0%, everything done is 100%. */
  lemma ProgressEnds(tasks: seq<Task>)
    requires |tasks| > 0
    ensures CompletedCount(tasks) == 0 ==> ProgressPercentage(tasks) == 0
    ensures CompletedCount(tasks) == |tasks| ==> ProgressPercentage(tasks) == 100
  {
    RoundedPercentEnds(|tasks|);
  }

  lemma RoundedPercentEnds(total: nat)
    requires total > 0
    ensures RoundedPercent(0, total) == 0 && RoundedPercent(total, total) == 100
  {
    QuotientIs(total, 2 * total, 0);
    QuotientIs(200 * total + total, 2 * total, 100);
  }

  /** More completed tasks never mean less progress. */
  lemma ProgressMonotone(c1: nat, c2: nat, total: nat)
    requires 0 < total && c1 <= c2 <= total
    ensures RoundedPercent(c1, total) <= RoundedPercent(c2, total)
  {
    var a := 200 * c1 + total;
    var b := 200 * c2 + total;
    var d := 2 * total;
    assert a <= b;
    DivMonotone(a, b, d);
  }

  // ---------------------------------------------------------------------
  // Phases

  /** `getPhaseTasks`: the tasks of one phase, in order. */
  function PhaseTasks(tasks: seq<Task>, phase: string): (r: seq<Task>)
    ensures |r| <= |tasks|
    ensures forall t :: t in r <==> t in tasks && t.phase == phase
  {
    if tasks == [] then []
    else (if tasks[0].phase == phase then [tasks[0]] else []) + PhaseTasks(tasks[1..], phase)
  }

  /** The filter keeps order: the tasks of a phase in a concatenation are those of each part, in turn. */
  lemma {:induction false} PhaseTasksAppend(xs: seq<Task>, ys: seq<Task>, phase: string)
    ensures PhaseTasks(xs + ys, phase) == PhaseTasks(xs, phase) + PhaseTasks(ys, phase)
    decreases |xs|
  {
    if xs == [] {
      assert xs + ys == ys;
    } else {
      assert (xs + ys)[0] == xs[0] && (xs + ys)[1..] == xs[1..] + ys;
      PhaseTasksAppend(xs[1..], ys, phase);
    }
  }

  /** `tasks.map(task => task.phase)`. */
  function Phases(tasks: seq<Task>): (r: seq<string>)
    ensures |r| == |tasks| && forall i :: 0 <= i < |tasks| ==> r[i] == tasks[i].phase
  {
    seq(|tasks|, i requires 0 <= i < |tasks| => tasks[i].phase)
  }

  /**
   * `Array.from(new Set(xs))`: each value where it first occurs, added to
   * the set left to right; `seen` is the set's contents so far.
   */
  function SetInsertions(xs: seq<string>, seen: seq<string>): seq<string>
    decreases |xs|
  {
    if xs == [] then seen
    else SetInsertions(xs[1..], if xs[0] in seen then seen else seen + [xs[0]])
  }

  /** `getUniquePhases`. */
  function UniquePhases(tasks: seq<Task>): seq<string> {
    SetInsertions(Phases(tasks), [])
  }

  /** The values of `xs` that do not occur earlier in `xs`: the reference for "first occurrences, in order". */
  function FirstOccurrences(xs: seq<string>): (r: seq<string>)
    decreases |xs|
  {
    if xs == [] then []
    else
      var init := xs[..|xs| - 1];
      FirstOccurrences(init) + (if xs[|xs| - 1] in init then [] else [xs[|xs| - 1]])
  }

  lemma {:induction false} FirstOccurrencesMembers(xs: seq<string>)
    ensures forall x :: x in FirstOccurrences(xs) <==> x in xs
    decreases |xs|
  {
    if xs != [] {
      var init := xs[..|xs| - 1];
      FirstOccurrencesMembers(init);
      assert xs == init + [xs[|xs| - 1]];
    }
  }

  lemma {:induction false} FirstOccurrencesDistinct(xs: seq<string>)
    ensures Distinct(FirstOccurrences(xs))
    decreases |xs|
  {
    if xs != [] {
      var init := xs[..|xs| - 1];
      var last := xs[|xs| - 1];
      var f := FirstOccurrences(init);
      FirstOccurrencesDistinct(init);
      FirstOccurrencesMembers(init);
      if last !in init {
        var g := f + [last];
        assert FirstOccurrences(xs) == g;
        forall i, j | 0 <= i < j < |g| ensures g[i] != g[j] {
          if j == |f| {
            assert g[i] == f[i] && f[i] in f;
          } else {
            assert g[i] == f[i] && g[j] == f[j];
          }
        }
      }
    }
  }

  predicate Distinct(xs: seq<string>) {
    forall i, j :: 0 <= i < j < |xs| ==> xs[i] != xs[j]
  }

  lemma {:induction false} SetInsertionsFirst(xs: seq<string>, p: seq<string>)
    ensures SetInsertions(xs, FirstOccurrences(p)) == FirstOccurrences(p + xs)
    decreases |xs|
  {
    if xs != [] {
      FirstOccurrencesMembers(p);
      var next := p + [xs[0]];
      assert (p + xs) == next + xs[1..];
      assert next[..|next| - 1] == p;
      assert FirstOccurrences(next) == FirstOccurrences(p) + (if xs[0] in p then [] else [xs[0]]);
      if xs[0] in p {
        assert FirstOccurrences(p) + [] == FirstOccurrences(p);
      }
      assert SetInsertions(xs, FirstOccurrences(p)) == SetInsertions(xs[1..], FirstOccurrences(next));
      SetInsertionsFirst(xs[1..], next);
    } else {
      assert p + xs == p;
    }
  }

  /**
   * `getUniquePhases` lists each phase once, in the order of first
   * occurrence, and every task's phase is among them.
   */
  lemma UniquePhasesFirstOccurrences(tasks: seq<Task>)
    ensures UniquePhases(tasks) == FirstOccurrences(Phases(tasks))
    ensures Distinct(UniquePhases(tasks))
    ensures forall t :: t in tasks ==> t.phase in UniquePhases(tasks)
    ensures forall ph :: ph in UniquePhases(tasks) ==> exists t :: t in tasks && t.phase == ph
  {
    assert FirstOccurrences([]) == [];
    SetInsertionsFirst(Phases(tasks), []);
    assert [] + Phases(tasks) == Phases(tasks);
    FirstOccurrencesDistinct(Phases(tasks));
    FirstOccurrencesMembers(Phases(tasks));
    forall t | t in tasks ensures t.phase in Phases(tasks) {
      var i :| 0 <= i < |tasks| && tasks[i] == t;
      assert Phases(tasks)[i] == t.phase;
    }
    forall ph | ph in UniquePhases(tasks) ensures exists t :: t in tasks && t.phase == ph {
      var i :| 0 <= i < |Phases(tasks)| && Phases(tasks)[i] == ph;
      assert tasks[i] in tasks;
    }
  }

  // ---------------------------------------------------------------------
  // The phase groups partition the tasks

  /** The sum of the phase group sizes over `phases`. */
  function GroupSizes(tasks: seq<Task>, phases: seq<string>): nat
    decreases |phases|
  {
    if phases == [] then 0 else |PhaseTasks(tasks, phases[0])| + GroupSizes(tasks, phases[1..])
  }

  function Occurrences(phases: seq<string>, x: string): nat
    decreases |phases|
  {
    if phases == [] then 0 else (if phases[0] == x then 1 else 0) + Occurrences(phases[1..], x)
  }

  lemma {:induction false} OccursOnce(phases: seq<string>, x: string)
    requires Distinct(phases) && x in phases
    ensures Occurrences(phases, x) == 1
    decreases |phases|
  {
    if phases[0] == x {
      NotOccurring(phases[1..], x);
    } else {
      OccursOnce(phases[1..], x);
    }
  }

  lemma {:induction false} NotOccurring(phases: seq<string>, x: string)
    requires x !in phases
    ensures Occurrences(phases, x) == 0
    decreases |phases|
  {
    if phases != [] {
      NotOccurring(phases[1..], x);
    }
  }

  lemma {:induction false} GroupSizesCons(t: Task, rest: seq<Task>, phases: seq<string>)
    ensures GroupSizes([t] + rest, phases) == Occurrences(phases, t.phase) + GroupSizes(rest, phases)
    decreases |phases|
  {
    if phases != [] {
      PhaseTasksAppend([t], rest, phases[0]);
      assert PhaseTasks([t], phases[0]) == (if t.phase == phases[0] then [t] else []);
      GroupSizesCons(t, rest, phases[1..]);
    }
  }

  /** Groups over distinct phases that cover every task add up to all the tasks. */
  lemma {:induction false} GroupsCover(tasks: seq<Task>, phases: seq<string>)
    requires Distinct(phases) && forall t :: t in tasks ==> t.phase in phases
    ensures GroupSizes(tasks, phases) == |tasks|
    decreases |tasks|
  {
    if tasks == [] {
      EmptyGroups(phases);
    } else {
      assert tasks == [tasks[0]] + tasks[1..];
      GroupSizesCons(tasks[0], tasks[1..], phases);
      OccursOnce(phases, tasks[0].phase);
      GroupsCover(tasks[1..], phases);
    }
  }

  lemma {:induction false} EmptyGroups(phases: seq<string>)
    ensures GroupSizes([], phases) == 0
    decreases |phases|
  {
    if phases != [] {
      EmptyGroups(phases[1..]);
    }
  }

  /** The page's phase sections show every task exactly once. */
  lemma PhasesPartitionTasks(tasks: seq<Task>)
    ensures GroupSizes(tasks, UniquePhases(tasks)) == |tasks|
  {
    UniquePhasesFirstOccurrences(tasks);
    GroupsCover(tasks, UniquePhases(tasks));
  }

  // ---------------------------------------------------------------------
  // Toggling a task

  /** `updateTaskStatus(roadmap.id, task.title, !task.isCompleted)`: the body it sends. */
  function ToggleRequest(task: Task): (body: Json)
    ensures body.JObj? && body.fields.Keys == {"task", "isCompleted"}
    ensures body.fields["task"] == JStr(task.title) && body.fields["isCompleted"] == JBool(!task.isCompleted)
  {
    JObj(map["task" := JStr(task.title), "isCompleted" := JBool(!task.isCompleted)])
  }

  /** The body always passes the backend's `RoadmapUpdateSchema`, and asks for the opposite state. */
  lemma ToggleRequestAccepted(fm: Formats, task: Task)
    ensures Accepts(fm, RoadmapUpdateSchema, ToggleRequest(task))
    ensures ToggleRequest(task).fields["isCompleted"].b != task.isCompleted
  {
    RoadmapUpdateAccepts(fm, ToggleRequest(task));
  }
}
