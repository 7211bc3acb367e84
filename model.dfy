/**
 * The constants of model.js: the set of command names, the set of statuses a
 * `list` filter may name, and the list of fields a stored task carries.
 */
module Model {

  /** Milliseconds since the epoch, as a JavaScript `Date` holds them; always supplied by the caller. */
  type Timestamp = int

  /** The three statuses a task can be in. */
  datatype Status = Todo | InProgress | Done

  /** The string a status is stored and filtered as. */
  function StatusName(s: Status): string {
    match s
    case Todo => "todo"
    case InProgress => "in-progress"
    case Done => "done"
  }

  /** The six commands of the tool. */
  datatype Command = Add | Update | Delete | MarkInProgress | MarkDone | List

  /** The word that selects a command on the command line. */
  function CommandName(c: Command): string {
    match c
    case Add => "add"
    case Update => "update"
    case Delete => "delete"
    case MarkInProgress => "mark-in-progress"
    case MarkDone => "mark-done"
    case List => "list"
  }

  /** `validCommandsSet`. */
  const ValidCommandsSet: set<string> :=
    {"add", "update", "delete", "mark-in-progress", "mark-done", "list"}

  /** `validListCommands`: the filters `list` accepts. */
  const ValidListCommands: set<string> := {"done", "todo", "in-progress"}

  /** `taskModel`: the fields of a stored task, in order. */
  const TaskModel: seq<string> := ["id", "description", "status", "createdAt", "updatedAt"]

  /** `updatedAt`: the empty string until the first change, then a date. */
  datatype Stamp = Unset | At(time: Timestamp)

  /** One task record as it is kept in tasks.json. */
  datatype Task = Task(id: int, description: string, status: Status, createdAt: Timestamp, updatedAt: Stamp)

  /** A JSON value as a task's fields hold them. */
  datatype Value = Number(n: int) | Text(s: string) | Date(time: Timestamp)

  /** A task as the JavaScript object it is stored as, keyed by field name. */
  function ToObject(t: Task): (o: map<string, Value>)
    ensures o.Keys == set f | f in TaskModel
    ensures o["id"] == Number(t.id) && o["description"] == Text(t.description)
    ensures o["status"].Text? && o["status"].s in ValidListCommands
  {
    map[
      "id" := Number(t.id),
      "description" := Text(t.description),
      "status" := Text(StatusName(t.status)),
      "createdAt" := Date(t.createdAt),
      "updatedAt" := match t.updatedAt case Unset => Text("") case At(time) => Date(time)
    ]
  }

  /** The object form loses nothing: two tasks stored alike are the same task. */
  lemma ToObjectInjective(a: Task, b: Task)
    requires ToObject(a) == ToObject(b)
    ensures a == b
  {
    assert ToObject(a)["status"] == ToObject(b)["status"];
    StatusNameInjective(a.status, b.status);
    assert ToObject(a)["updatedAt"] == ToObject(b)["updatedAt"];
    assert ToObject(a)["createdAt"] == ToObject(b)["createdAt"];
  }

  /** `taskModel` names five distinct fields. */
  lemma TaskModelFieldsDistinct()
    ensures |TaskModel| == 5
    ensures forall i, j :: 0 <= i < j < |TaskModel| ==> TaskModel[i] != TaskModel[j]
  {
  }

  /** Distinct statuses are stored as distinct strings, all of them valid `list` filters. */
  lemma StatusNameInjective(a: Status, b: Status)
    ensures StatusName(a) in ValidListCommands
    ensures StatusName(a) == StatusName(b) ==> a == b
  {
  }

  /** `validListCommands` holds exactly the names of the three statuses. */
  lemma ValidListCommandsAreStatusNames()
    ensures |ValidListCommands| == 3
    ensures forall f :: f in ValidListCommands <==> exists s: Status :: StatusName(s) == f
  {
    assert StatusName(Done) == "done" && StatusName(Todo) == "todo" && StatusName(InProgress) == "in-progress";
  }

  /** `validCommandsSet` holds exactly the names of the six commands. */
  lemma ValidCommandsSetAreCommandNames()
    ensures |ValidCommandsSet| == 6
    ensures forall w :: w in ValidCommandsSet <==> exists c: Command :: CommandName(c) == w
  {
    assert CommandName(Add) == "add" && CommandName(Update) == "update" && CommandName(Delete) == "delete";
    assert CommandName(MarkInProgress) == "mark-in-progress" && CommandName(MarkDone) == "mark-done";
    assert CommandName(List) == "list";
  }
}
