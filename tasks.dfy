/**
 * The in-memory task-list logic of app.js: the array loaded from tasks.json is a
 * sequence of tasks, and every command is a transformation of that sequence.
 * Lookups go through `findIndex`/`find`, so only the FIRST task carrying an id is
 * ever touched, and a new task's id is the length of the list plus one.
 */
module Tasks {
  import opened Wrappers
  import opened Model

  /** Some task in the list carries `id`. */
  predicate HasId(tasks: seq<Task>, id: int) {
    exists j :: 0 <= j < |tasks| && tasks[j].id == id
  }

  /** `tasks.findIndex(task => task.id === id)`: the first index carrying `id`, or -1. */
  function FindIndex(tasks: seq<Task>, id: int): (r: int)
    ensures -1 <= r < |tasks|
    ensures 0 <= r ==> tasks[r].id == id
    ensures forall j :: 0 <= j < |tasks| && (r < 0 || j < r) ==> tasks[j].id != id
    ensures 0 <= r <==> HasId(tasks, id)
  {
    if |tasks| == 0 then -1
    else if tasks[0].id == id then 0
    else
      var k := FindIndex(tasks[1..], id);
      assert forall j :: 1 <= j < |tasks| ==> tasks[j] == tasks[1..][j - 1];
      if k < 0 then -1 else k + 1
  }

  /** `tasks.find(task => task.id === id)`: the first task carrying `id`. */
  function Find(tasks: seq<Task>, id: int): (r: Option<Task>)
    ensures var i := FindIndex(tasks, id); r == if i < 0 then None else Some(tasks[i])
  {
    if |tasks| == 0 then None
    else if tasks[0].id == id then Some(tasks[0])
    else Find(tasks[1..], id)
  }

  /** `tasks.splice(i, 1, t)`: the task at `i` replaced by `t`. */
  function SpliceReplace(tasks: seq<Task>, i: nat, t: Task): (r: seq<Task>)
    requires i < |tasks|
    ensures r == tasks[i := t]
  {
    tasks[..i] + [t] + tasks[i + 1..]
  }

  /** `tasks.splice(i, 1)`: the task at `i` taken out, the others kept in order. */
  function SpliceRemove(tasks: seq<Task>, i: nat): (r: seq<Task>)
    requires i < |tasks|
    ensures |r| == |tasks| - 1
    ensures forall j :: 0 <= j < i ==> r[j] == tasks[j]
    ensures forall j :: i <= j < |r| ==> r[j] == tasks[j + 1]
    ensures multiset(r) + multiset{tasks[i]} == multiset(tasks)
  {
    assert tasks == tasks[..i] + [tasks[i]] + tasks[i + 1..];
    tasks[..i] + tasks[i + 1..]
  }

  /** `after` differs from `before` at most at index `i`. */
  predicate OnlyChangedAt(before: seq<Task>, after: seq<Task>, i: int) {
    |after| == |before| && forall j :: 0 <= j < |before| && j != i ==> after[j] == before[j]
  }

  /** The id the next added task receives. */
  function NextId(tasks: seq<Task>): int {
    |tasks| + 1
  }

  /** The collection after `add`: one new `todo` task at the end, never yet updated. */
  function Add(tasks: seq<Task>, description: string, now: Timestamp): (r: seq<Task>)
    ensures |r| == |tasks| + 1 && r[..|tasks|] == tasks
    ensures r[|tasks|].id == |tasks| + 1 && r[|tasks|].description == description
    ensures r[|tasks|].status == Todo && r[|tasks|].createdAt == now && r[|tasks|].updatedAt == Unset
  {
    tasks + [Task(NextId(tasks), description, Todo, now, Unset)]
  }

  /** The collection after `update`, or None when no task carries `id`. */
  function Update(tasks: seq<Task>, id: int, description: string, now: Timestamp): (r: Option<seq<Task>>)
    ensures r.Some? <==> HasId(tasks, id)
    ensures r.Some? ==>
      var i := FindIndex(tasks, id);
      OnlyChangedAt(tasks, r.value, i) &&
      r.value[i] == Task(id, description, tasks[i].status, tasks[i].createdAt, At(now))
  {
    var i := FindIndex(tasks, id);
    if i == -1 then None
    else Some(SpliceReplace(tasks, i, tasks[i].(description := description, updatedAt := At(now))))
  }

  /** The collection after `mark-in-progress` or `mark-done`, or None when no task carries `id`. */
  function Mark(tasks: seq<Task>, id: int, status: Status, now: Timestamp): (r: Option<seq<Task>>)
    ensures r.Some? <==> HasId(tasks, id)
    ensures r.Some? ==>
      var i := FindIndex(tasks, id);
      OnlyChangedAt(tasks, r.value, i) &&
      r.value[i] == Task(id, tasks[i].description, status, tasks[i].createdAt, At(now))
  {
    var i := FindIndex(tasks, id);
    if i == -1 then None
    else Some(SpliceReplace(tasks, i, tasks[i].(status := status, updatedAt := At(now))))
  }

  /** The collection after `delete`, or None when no task carries `id`. */
  function Delete(tasks: seq<Task>, id: int): (r: Option<seq<Task>>)
    ensures r.Some? <==> HasId(tasks, id)
    ensures r.Some? ==>
      var i := FindIndex(tasks, id);
      |r.value| == |tasks| - 1 &&
      r.value[..i] == tasks[..i] && r.value[i..] == tasks[i + 1..] &&
      multiset(r.value) + multiset{tasks[i]} == multiset(tasks)
  {
    var i := FindIndex(tasks, id);
    if i == -1 then None
    else Some(SpliceRemove(tasks, i))
  }

  /** `tasks.filter(task => task.status === status)`. */
  function FilterByStatus(tasks: seq<Task>, status: string): (r: seq<Task>)
    ensures |r| <= |tasks|
    ensures forall t :: t in r <==> t in tasks && StatusName(t.status) == status
  {
    if |tasks| == 0 then []
    else
      var rest := FilterByStatus(tasks[1..], status);
      assert forall t :: t in tasks <==> t == tasks[0] || t in tasks[1..];
      if StatusName(tasks[0].status) == status then [tasks[0]] + rest else rest
  }

  /** Filtering keeps the order of the collection: it distributes over concatenation. */
  lemma {:induction false} FilterDistributes(a: seq<Task>, b: seq<Task>, status: string)
    ensures FilterByStatus(a + b, status) == FilterByStatus(a, status) + FilterByStatus(b, status)
  {
    if |a| == 0 {
      assert a + b == b;
    } else {
      assert (a + b)[1..] == a[1..] + b;
      FilterDistributes(a[1..], b, status);
    }
  }

  /** Filtering twice by the same status gives the same list as filtering once. */
  lemma {:induction false} FilterIdempotent(tasks: seq<Task>, status: string)
    ensures FilterByStatus(FilterByStatus(tasks, status), status) == FilterByStatus(tasks, status)
  {
    if |tasks| > 0 {
      FilterIdempotent(tasks[1..], status);
      var rest := FilterByStatus(tasks[1..], status);
      if StatusName(tasks[0].status) == status {
        assert ([tasks[0]] + rest)[1..] == rest;
      }
    }
  }

  /** Every task is listed under exactly one of the three status filters. */
  lemma {:induction false} FiltersPartition(tasks: seq<Task>)
    ensures |FilterByStatus(tasks, "todo")| + |FilterByStatus(tasks, "in-progress")|
            + |FilterByStatus(tasks, "done")| == |tasks|
  {
    if |tasks| > 0 {
      FiltersPartition(tasks[1..]);
    }
  }

  /** Ids are 1, 2, ..., n in list order: what a history of adds produces. */
  predicate IdsSequential(tasks: seq<Task>) {
    forall j :: 0 <= j < |tasks| ==> tasks[j].id == j + 1
  }

  /** No two tasks share an id. */
  predicate IdsUnique(tasks: seq<Task>) {
    forall j, k :: 0 <= j < k < |tasks| ==> tasks[j].id != tasks[k].id
  }

  /** Same length and the same id at every position. */
  predicate SameIds(a: seq<Task>, b: seq<Task>) {
    |a| == |b| && forall j :: 0 <= j < |a| ==> a[j].id == b[j].id
  }

  /** A lookup depends only on the ids in the list. */
  lemma FindIndexSameIds(a: seq<Task>, b: seq<Task>, id: int)
    requires SameIds(a, b)
    ensures FindIndex(a, id) == FindIndex(b, id)
  {
  }

  /** Marking a task twice with the same status is the same as marking it once, at the later time. */
  lemma MarkTwice(tasks: seq<Task>, id: int, status: Status, first: Timestamp, second: Timestamp)
    requires HasId(tasks, id)
    ensures Mark(Mark(tasks, id, status, first).value, id, status, second) == Mark(tasks, id, status, second)
  {
    FindIndexSameIds(tasks, Mark(tasks, id, status, first).value, id);
  }

  /** With unique ids, a delete leaves no task carrying the deleted id. */
  lemma DeleteUniqueRemovesId(tasks: seq<Task>, id: int)
    requires IdsUnique(tasks) && HasId(tasks, id)
    ensures !HasId(Delete(tasks, id).value, id)
  {
  }

  /** If no task is `done` yet, marking one `done` makes `list done` show exactly that task. */
  lemma {:induction false} MarkOneDoneListsIt(tasks: seq<Task>, id: int, now: Timestamp)
    requires forall j :: 0 <= j < |tasks| ==> tasks[j].status != Done
    requires HasId(tasks, id)
    ensures var r := Mark(tasks, id, Done, now).value;
      FilterByStatus(r, "done") == [r[FindIndex(tasks, id)]]
  {
    var r := Mark(tasks, id, Done, now).value;
    var i := FindIndex(tasks, id);
    assert r == r[..i] + [r[i]] + r[i + 1..];
    FilterDistributes(r[..i] + [r[i]], r[i + 1..], "done");
    FilterDistributes(r[..i], [r[i]], "done");
    NoneDone(r[..i]);
    NoneDone(r[i + 1..]);
  }

  /** A list of tasks none of which is `done` lists nothing under `done`. */
  lemma {:induction false} NoneDone(tasks: seq<Task>)
    requires forall j :: 0 <= j < |tasks| ==> tasks[j].status != Done
    ensures FilterByStatus(tasks, "done") == []
  {
    if |tasks| > 0 {
      NoneDone(tasks[1..]);
    }
  }

  /** A command that reaches the collection, with its already validated arguments. */
  datatype Op =
    | AddOp(description: string, now: Timestamp)
    | UpdateOp(id: int, description: string, now: Timestamp)
    | MarkOp(id: int, status: Status, now: Timestamp)
    | DeleteOp(id: int)

  /** The collection that is written back after `op`; a lookup that fails throws before writing. */
  function Apply(tasks: seq<Task>, op: Op): seq<Task> {
    var r := match op
      case AddOp(d, now) => Some(Add(tasks, d, now))
      case UpdateOp(id, d, now) => Update(tasks, id, d, now)
      case MarkOp(id, s, now) => Mark(tasks, id, s, now)
      case DeleteOp(id) => Delete(tasks, id);
    if r.Some? then r.value else tasks
  }

  /** The collection after a run of commands, one invocation each. */
  function Replay(tasks: seq<Task>, ops: seq<Op>): seq<Task>
    decreases |ops|
  {
    if |ops| == 0 then tasks else Replay(Apply(tasks, ops[0]), ops[1..])
  }

  /** No command of the run is a delete. */
  predicate NoDeletes(ops: seq<Op>) {
    forall k :: 0 <= k < |ops| ==> !ops[k].DeleteOp?
  }

  /**
   * No command sends a task back to `todo`: the marks the tool offers set
   * in-progress or done, an update keeps the status, and an add only appends.
   */
  lemma ApplyNeverResetsToTodo(tasks: seq<Task>, op: Op)
    requires !op.DeleteOp? && (op.MarkOp? ==> op.status != Todo)
    ensures |Apply(tasks, op)| >= |tasks|
    ensures forall j :: 0 <= j < |tasks| && tasks[j].status != Todo ==> Apply(tasks, op)[j].status != Todo
  {
  }

  /** Adds, updates and marks keep ids numbered 1..n. */
  lemma ApplyKeepsIdsSequential(tasks: seq<Task>, op: Op)
    requires IdsSequential(tasks) && !op.DeleteOp?
    ensures IdsSequential(Apply(tasks, op))
  {
  }

  /** Without deletes, a run of commands keeps ids numbered 1..n in list order. */
  lemma {:induction false} NoDeletesKeepIdsSequential(tasks: seq<Task>, ops: seq<Op>)
    requires IdsSequential(tasks) && NoDeletes(ops)
    ensures IdsSequential(Replay(tasks, ops))
    decreases |ops|
  {
    if |ops| > 0 {
      ApplyKeepsIdsSequential(tasks, ops[0]);
      assert NoDeletes(ops[1..]) by {
        forall k | 0 <= k < |ops| - 1 ensures !ops[1..][k].DeleteOp? {
          assert ops[1..][k] == ops[k + 1];
        }
      }
      NoDeletesKeepIdsSequential(Apply(tasks, ops[0]), ops[1..]);
    }
  }

  /** Starting from an empty file, a run without deletes never produces two tasks with one id. */
  lemma NoDeletesIdsUnique(ops: seq<Op>)
    requires NoDeletes(ops)
    ensures IdsUnique(Replay([], ops))
  {
    NoDeletesKeepIdsSequential([], ops);
  }

  /** After a delete, `add` can hand out an id that is already taken. */
  lemma DeleteThenAddRepeatsId(t0: Timestamp, t1: Timestamp, t2: Timestamp)
    ensures var r := Replay([], [AddOp("a", t0), AddOp("b", t1), DeleteOp(1), AddOp("c", t2)]);
      r == [Task(2, "b", Todo, t1, Unset), Task(2, "c", Todo, t2, Unset)] && !IdsUnique(r)
  {
    var s1 := Apply([], AddOp("a", t0));
    var s2 := Apply(s1, AddOp("b", t1));
    assert s2 == [Task(1, "a", Todo, t0, Unset), Task(2, "b", Todo, t1, Unset)];
    assert FindIndex(s2, 1) == 0;
    var s3 := Apply(s2, DeleteOp(1));
    assert s3 == [Task(2, "b", Todo, t1, Unset)];
    var s4 := Apply(s3, AddOp("c", t2));
    assert s4 == [Task(2, "b", Todo, t1, Unset), Task(2, "c", Todo, t2, Unset)];
    var ops := [AddOp("a", t0), AddOp("b", t1), DeleteOp(1), AddOp("c", t2)];
    assert Replay([], ops) == Replay(s1, ops[1..]);
    assert Replay(s1, ops[1..]) == Replay(s2, ops[2..]);
    assert Replay(s2, ops[2..]) == Replay(s3, ops[3..]);
    assert Replay(s3, ops[3..]) == Replay(s4, []);
  }
}
