/**
 * The roadmap collection `users/{userId}/roadmaps` as an in-memory store.
 * `serverTimestamp()` is an abstract clock that every write advances, so
 * timestamps are strictly increasing. Document ids (`doc()`) are supplied
 * by the caller and must be fresh.
 */
module RoadmapRepository {
  import opened Wrappers
  import opened Js

  // ---------------------------------------------------------------------
  // The two array transforms of `updateTaskStatus`

  /** `FieldValue.arrayUnion(x)` applied to the stored array. */
  function ArrayUnion(xs: seq<string>, x: string): (r: seq<string>)
    ensures forall y :: y in r <==> y in xs || y == x
    ensures |xs| <= |r| <= |xs| + 1 && r[..|xs|] == xs
  {
    if x in xs then xs else xs + [x]
  }

  /** `FieldValue.arrayRemove(x)` applied to the stored array: every occurrence goes. */
  function ArrayRemove(xs: seq<string>, x: string): (r: seq<string>)
    ensures forall y :: y in r <==> y in xs && y != x
    ensures |r| <= |xs|
  {
    if xs == [] then []
    else (if xs[0] == x then [] else [xs[0]]) + ArrayRemove(xs[1..], x)
  }

  predicate NoDuplicates(xs: seq<string>) {
    forall i, j :: 0 <= i < j < |xs| ==> xs[i] != xs[j]
  }

  /** Marking a task that is already present changes nothing; otherwise it goes at the end. */
  lemma UnionPresent(xs: seq<string>, x: string)
    ensures x in xs ==> ArrayUnion(xs, x) == xs
    ensures x !in xs ==> ArrayUnion(xs, x) == xs + [x]
  {
  }

  /** Unmarking a task that is absent changes nothing. */
  lemma {:induction false} RemoveAbsent(xs: seq<string>, x: string)
    requires x !in xs
    ensures ArrayRemove(xs, x) == xs
  {
    if xs != [] {
      assert xs[0] != x;
      RemoveAbsent(xs[1..], x);
      assert [xs[0]] + xs[1..] == xs;
    }
  }

  /** Marking twice is marking once. */
  lemma UnionIdempotent(xs: seq<string>, x: string)
    ensures ArrayUnion(ArrayUnion(xs, x), x) == ArrayUnion(xs, x)
  {
  }

  /** Unmarking twice is unmarking once. */
  lemma RemoveIdempotent(xs: seq<string>, x: string)
    ensures ArrayRemove(ArrayRemove(xs, x), x) == ArrayRemove(xs, x)
  {
    RemoveAbsent(ArrayRemove(xs, x), x);
  }

  lemma {:induction false} RemoveAppend(xs: seq<string>, ys: seq<string>, x: string)
    ensures ArrayRemove(xs + ys, x) == ArrayRemove(xs, x) + ArrayRemove(ys, x)
  {
    if xs != [] {
      assert (xs + ys)[1..] == xs[1..] + ys;
      RemoveAppend(xs[1..], ys, x);
    } else {
      assert xs + ys == ys;
    }
  }

  /** Marking an absent task and unmarking it again restores the list. */
  lemma MarkThenUnmark(xs: seq<string>, x: string)
    requires x !in xs
    ensures ArrayRemove(ArrayUnion(xs, x), x) == xs
  {
    RemoveAppend(xs, [x], x);
    RemoveAbsent(xs, x);
    assert ArrayRemove([x], x) == [] + ArrayRemove([], x);
  }

  /** A duplicate-free list stays duplicate-free under both updates. */
  lemma UnionKeepsNoDuplicates(xs: seq<string>, x: string)
    requires NoDuplicates(xs)
    ensures NoDuplicates(ArrayUnion(xs, x))
  {
  }

  lemma {:induction false} RemoveKeepsNoDuplicates(xs: seq<string>, x: string)
    requires NoDuplicates(xs)
    ensures NoDuplicates(ArrayRemove(xs, x))
  {
    if xs != [] {
      var rest := ArrayRemove(xs[1..], x);
      assert NoDuplicates(xs[1..]) by {
        forall i, j | 0 <= i < j < |xs[1..]| ensures xs[1..][i] != xs[1..][j] {
          assert xs[1..][i] == xs[i + 1] && xs[1..][j] == xs[j + 1];
        }
      }
      RemoveKeepsNoDuplicates(xs[1..], x);
      if xs[0] != x {
        assert xs[0] !in xs[1..];
        assert xs[0] !in rest;
        var r := [xs[0]] + rest;
        forall i, j | 0 <= i < j < |r| ensures r[i] != r[j] {
          if i == 0 { assert r[j] == rest[j - 1]; assert rest[j - 1] in rest; }
          else { assert r[i] == rest[i - 1] && r[j] == rest[j - 1]; }
        }
      } else {
        assert ArrayRemove(xs, x) == rest;
      }
    }
  }

  // ---------------------------------------------------------------------
  // The store

  /**
   * A stored roadmap: the fields the caller supplied, the server timestamp
   * `createdAt`, and `completedTasks`.
   */
  datatype RoadmapDoc = RoadmapDoc(data: map<string, Json>, createdAt: nat, completedTasks: seq<string>)

  /** The two keys `saveRoadmap` writes itself, overriding the caller's. */
  const ReservedKeys: set<string> := {"createdAt", "completedTasks"}

  /** Every timestamp is in the past, and no two roadmaps of a user share one. */
  ghost predicate StoreValid(roadmaps: map<string, map<string, RoadmapDoc>>, clock: nat) {
    (forall u, id :: u in roadmaps && id in roadmaps[u] ==> roadmaps[u][id].createdAt < clock)
    && (forall u, a, b :: u in roadmaps && a in roadmaps[u] && b in roadmaps[u] && a != b ==>
          roadmaps[u][a].createdAt != roadmaps[u][b].createdAt)
  }

  /** No roadmap lists a completed task twice. */
  ghost predicate AllTasksDistinct(roadmaps: map<string, map<string, RoadmapDoc>>) {
    forall u, id :: u in roadmaps && id in roadmaps[u] ==> NoDuplicates(roadmaps[u][id].completedTasks)
  }

  /** Replacing one roadmap's completed tasks keeps the timestamps, and duplicate-freedom when the new list has none. */
  lemma SetTasksKeeps(roadmaps: map<string, map<string, RoadmapDoc>>, clock: nat, u: string, id: string, tasks: seq<string>)
    requires StoreValid(roadmaps, clock) && u in roadmaps && id in roadmaps[u]
    ensures var r := roadmaps[u := roadmaps[u][id := roadmaps[u][id].(completedTasks := tasks)]];
            StoreValid(r, clock) && (AllTasksDistinct(roadmaps) && NoDuplicates(tasks) ==> AllTasksDistinct(r))
  {
  }

  class RoadmapStore {
    /** userId -> roadmapId -> document */
    var roadmaps: map<string, map<string, RoadmapDoc>>
    /** The next value of `serverTimestamp()`. */
    var clock: nat

    ghost predicate Valid()
      reads this
    {
      StoreValid(roadmaps, clock)
    }

    ghost predicate TasksDistinct()
      reads this
    {
      AllTasksDistinct(roadmaps)
    }

    /** The roadmaps of one user; a user without any has none. */
    function Docs(userId: string): map<string, RoadmapDoc>
      reads this
    {
      if userId in roadmaps then roadmaps[userId] else map[]
    }

    constructor ()
      ensures Valid() && roadmaps == map[] && clock == 0
    {
      roadmaps := map[];
      clock := 0;
    }

    /**
     * `saveRoadmap`: a new document holding the caller's fields, except that
     * `createdAt` is the server time and `completedTasks` is empty.
     */
    method SaveRoadmap(userId: string, roadmapData: map<string, Json>, freshId: string) returns (id: string)
      requires Valid() && freshId !in Docs(userId)
      modifies this
      ensures Valid() && (old(TasksDistinct()) ==> TasksDistinct())
      ensures id == freshId && clock == old(clock) + 1
      ensures roadmaps == old(roadmaps)[userId := old(Docs(userId))[id := RoadmapDoc(roadmapData - ReservedKeys, old(clock), [])]]
    {
      id := freshId;
      roadmaps := roadmaps[userId := Docs(userId)[id := RoadmapDoc(roadmapData - ReservedKeys, clock, [])]];
      clock := clock + 1;
    }

    /**
     * `updateTaskStatus`: arrayUnion or arrayRemove on one roadmap's
     * `completedTasks`. `update` on a missing document fails with NOT_FOUND.
     */
    method UpdateTaskStatus(userId: string, roadmapId: string, task: string, isCompleted: bool) returns (r: Outcome)
      requires Valid()
      modifies this
      ensures Valid() && clock == old(clock)
      ensures old(TasksDistinct()) ==> TasksDistinct()
      ensures roadmapId !in old(Docs(userId)) ==> r == Failed(NotFound) && roadmaps == old(roadmaps)
      ensures roadmapId in old(Docs(userId)) ==>
                var d := old(Docs(userId))[roadmapId];
                var tasks := if isCompleted then ArrayUnion(d.completedTasks, task) else ArrayRemove(d.completedTasks, task);
                r == Done && roadmaps == old(roadmaps)[userId := old(Docs(userId))[roadmapId := d.(completedTasks := tasks)]]
    {
      if roadmapId !in Docs(userId) {
        return Failed(NotFound);
      }
      var d := Docs(userId)[roadmapId];
      var tasks := if isCompleted then ArrayUnion(d.completedTasks, task) else ArrayRemove(d.completedTasks, task);
      if TasksDistinct() {
        assert NoDuplicates(d.completedTasks);
        if isCompleted { UnionKeepsNoDuplicates(d.completedTasks, task); }
        else { RemoveKeepsNoDuplicates(d.completedTasks, task); }
      }
      SetTasksKeeps(roadmaps, clock, userId, roadmapId, tasks);
      roadmaps := roadmaps[userId := Docs(userId)[roadmapId := d.(completedTasks := tasks)]];
      r := Done;
    }
  }
}
