/**
 * The command layer of app.js: argument validation, routing of the command word,
 * and the load, change, save cycle of each command against tasks.json.
 *
 * The pure functions below give the outcome of each command (the file contents
 * afterwards and the reply); class Tracker performs the same commands step by
 * step on its `file` field and is proved against them.
 */
module App {
  import opened Wrappers
  import opened Model
  import Tasks

  /** Why an invocation ends with a non-zero exit code. */
  datatype Error =
    | InvalidCommand   // validateCommand exits: unknown command or list filter
    | InvalidTaskName  // validateTaskName exits
    | InvalidTaskId    // validateTaskId exits
    | FileNotFound     // getTasks throws: tasks.json does not exist
    | TaskNotFound     // update, delete and the marks throw: no task with that id
    | NoTasks          // listTasks exits: the list is empty

  /** What one invocation reports. */
  datatype Reply =
    | Saved(action: string)       // postTasks wrote the file, "Your task is <action> successfully"
    | Listed(tasks: seq<Task>)    // listTasks printed these tasks
    | Failed(error: Error)

  /** The contents of tasks.json after an invocation (None: no such file), and its reply. */
  datatype Effect = Effect(file: Option<seq<Task>>, reply: Reply)

  /** `input[k]`: the k-th command-line word, undefined past the end. */
  function Arg(argv: seq<string>, k: nat): Option<string> {
    if k < |argv| then Some(argv[k]) else None
  }

  /** `validateCommand`: the word is present and a member of `commandList`. */
  predicate ValidateCommand(command: Option<string>, commandList: set<string>) {
    command.Some? && command.value in commandList
  }

  /** `validateTaskName`: a string (not undefined) that is not empty. */
  predicate ValidateTaskName(name: Option<string>) {
    name.Some? && |name.value| != 0
  }

  /** `validateTaskId`: not NaN, not 0 and not negative. */
  predicate ValidateTaskId(id: Option<int>)
    ensures ValidateTaskId(id) <==> id.Some? && id.value >= 1
  {
    id.Some? && id.value != 0 && !(id.value <= 0)
  }

  /** `parseInt(input[k])`; a missing word parses to NaN. `parseInt` itself is supplied. */
  function ParseId(arg: Option<string>, parseInt: string -> Option<int>): Option<int> {
    if arg.None? then None else parseInt(arg.value)
  }

  /** The `switch` of readInputFromCLI: which command a word selects, if any. */
  function Route(command: string): (r: Option<Command>)
    ensures r.Some? <==> command in ValidCommandsSet
    ensures r.Some? ==> CommandName(r.value) == command
  {
    if command == "add" then Some(Add)
    else if command == "update" then Some(Update)
    else if command == "delete" then Some(Delete)
    else if command == "mark-in-progress" then Some(MarkInProgress)
    else if command == "mark-done" then Some(MarkDone)
    else if command == "list" then Some(List)
    else None
  }

  /** Every command is reached by its own name. */
  lemma RouteRoundTrip(c: Command)
    ensures Route(CommandName(c)) == Some(c)
  {
  }

  /** The tasks an `add` starts from: an absent file is first created holding `[]`. */
  function Stored(file: Option<seq<Task>>): seq<Task> {
    if file.None? then [] else file.value
  }

  /** `add <description>`. */
  function AddEffect(file: Option<seq<Task>>, name: Option<string>, now: Timestamp): (e: Effect)
    ensures e.reply.Failed? <==> name.None? || name.value == ""
    ensures e.reply.Failed? ==> e == Effect(file, Failed(InvalidTaskName))
    ensures !e.reply.Failed? ==>
      e.reply == Saved("added") && e.file == Some(Tasks.Add(Stored(file), name.value, now))
  {
    if !ValidateTaskName(name) then Effect(file, Failed(InvalidTaskName))
    else Effect(Some(Tasks.Add(Stored(file), name.value, now)), Saved("added"))
  }

  /** Writes `changed` back under `action`, or fails with TaskNotFound and writes nothing. */
  function Commit(file: Option<seq<Task>>, changed: Option<seq<Task>>, action: string): Effect {
    if changed.None? then Effect(file, Failed(TaskNotFound)) else Effect(changed, Saved(action))
  }

  /** `update <id> <description>`: id checked first, then the name, then the file is read. */
  function UpdateEffect(file: Option<seq<Task>>, id: Option<int>, name: Option<string>, now: Timestamp): (e: Effect)
    ensures e.reply.Failed? ==> e.file == file
    ensures e.reply == Failed(InvalidTaskId) <==> !ValidateTaskId(id)
    ensures e.reply == Failed(InvalidTaskName) <==> ValidateTaskId(id) && !ValidateTaskName(name)
    ensures e.reply == Failed(FileNotFound) <==> ValidateTaskId(id) && ValidateTaskName(name) && file.None?
    ensures e.reply == Failed(TaskNotFound) <==>
      ValidateTaskId(id) && ValidateTaskName(name) && file.Some? && !Tasks.HasId(file.value, id.value)
    ensures ValidateTaskId(id) && ValidateTaskName(name) && file.Some? && Tasks.HasId(file.value, id.value) ==>
      e.reply == Saved("updated")
    ensures e.reply.Saved? ==> file.Some? && e.file == Tasks.Update(file.value, id.value, name.value, now)
  {
    if !ValidateTaskId(id) then Effect(file, Failed(InvalidTaskId))
    else if !ValidateTaskName(name) then Effect(file, Failed(InvalidTaskName))
    else if file.None? then Effect(file, Failed(FileNotFound))
    else Commit(file, Tasks.Update(file.value, id.value, name.value, now), "updated")
  }

  /** `delete <id>`. */
  function DeleteEffect(file: Option<seq<Task>>, id: Option<int>): (e: Effect)
    ensures e.reply.Failed? ==> e.file == file
    ensures e.reply == Failed(InvalidTaskId) <==> !ValidateTaskId(id)
    ensures e.reply == Failed(FileNotFound) <==> ValidateTaskId(id) && file.None?
    ensures e.reply == Failed(TaskNotFound) <==>
      ValidateTaskId(id) && file.Some? && !Tasks.HasId(file.value, id.value)
    ensures ValidateTaskId(id) && file.Some? && Tasks.HasId(file.value, id.value) ==> e.reply == Saved("deleted")
    ensures e.reply.Saved? ==> file.Some? && e.file == Tasks.Delete(file.value, id.value)
  {
    if !ValidateTaskId(id) then Effect(file, Failed(InvalidTaskId))
    else if file.None? then Effect(file, Failed(FileNotFound))
    else Commit(file, Tasks.Delete(file.value, id.value), "deleted")
  }

  /** `mark-in-progress <id>` and `mark-done <id>`, which differ only in `status` and `action`. */
  function MarkEffect(file: Option<seq<Task>>, id: Option<int>, status: Status, action: string, now: Timestamp): (e: Effect)
    ensures e.reply.Failed? ==> e.file == file
    ensures e.reply == Failed(InvalidTaskId) <==> !ValidateTaskId(id)
    ensures e.reply == Failed(FileNotFound) <==> ValidateTaskId(id) && file.None?
    ensures e.reply == Failed(TaskNotFound) <==>
      ValidateTaskId(id) && file.Some? && !Tasks.HasId(file.value, id.value)
    ensures ValidateTaskId(id) && file.Some? && Tasks.HasId(file.value, id.value) ==> e.reply == Saved(action)
    ensures e.reply.Saved? ==> file.Some? && e.file == Tasks.Mark(file.value, id.value, status, now)
  {
    if !ValidateTaskId(id) then Effect(file, Failed(InvalidTaskId))
    else if file.None? then Effect(file, Failed(FileNotFound))
    else Commit(file, Tasks.Mark(file.value, id.value, status, now), action)
  }

  /** `if (taskStatus)`: a filter word that is present and not the empty string. */
  predicate HasFilter(status: Option<string>) {
    status.Some? && status.value != ""
  }

  /** `list [status]`: never writes; fails on an empty list, else shows all tasks or those with the status. */
  function ListEffect(file: Option<seq<Task>>, status: Option<string>): (e: Effect)
    ensures e.file == file
    ensures e.reply.Listed? <==>
      (!HasFilter(status) || status.value in ValidListCommands) && file.Some? && file.value != []
    ensures e.reply.Listed? && !HasFilter(status) ==> e.reply.tasks == file.value
    ensures e.reply.Listed? && HasFilter(status) ==>
      e.reply.tasks == Tasks.FilterByStatus(file.value, status.value)
    ensures !e.reply.Listed? ==> e.reply.Failed?
    ensures e.reply == Failed(InvalidCommand) <==> HasFilter(status) && status.value !in ValidListCommands
    ensures e.reply == Failed(FileNotFound) <==>
      (!HasFilter(status) || status.value in ValidListCommands) && file.None?
    ensures e.reply == Failed(NoTasks) <==>
      (!HasFilter(status) || status.value in ValidListCommands) && file == Some([])
  {
    var filtered := HasFilter(status);
    if filtered && !ValidateCommand(status, ValidListCommands) then Effect(file, Failed(InvalidCommand))
    else if file.None? then Effect(file, Failed(FileNotFound))
    else if |file.value| == 0 then Effect(file, Failed(NoTasks))
    else if !filtered then Effect(file, Listed(file.value))
    else Effect(file, Listed(Tasks.FilterByStatus(file.value, status.value)))
  }

  /** One invocation `node app.js <command> ...`: `argv[2]` is the command word. */
  function Execute(file: Option<seq<Task>>, argv: seq<string>, parseInt: string -> Option<int>, now: Timestamp): (e: Effect)
    ensures e.reply.Failed? ==> e.file == file
    ensures e.reply.Listed? ==> e.file == file
    ensures e.reply == Failed(InvalidCommand) <==>
      !ValidateCommand(Arg(argv, 2), ValidCommandsSet) ||
      (argv[2] == "list" && HasFilter(Arg(argv, 3)) && argv[3] !in ValidListCommands)
    ensures Arg(argv, 2) == Some("add") ==> e == AddEffect(file, Arg(argv, 3), now)
    ensures Arg(argv, 2) == Some("update") ==>
      e == UpdateEffect(file, ParseId(Arg(argv, 3), parseInt), Arg(argv, 4), now)
    ensures Arg(argv, 2) == Some("delete") ==> e == DeleteEffect(file, ParseId(Arg(argv, 3), parseInt))
    ensures Arg(argv, 2) == Some("mark-in-progress") ==>
      e == MarkEffect(file, ParseId(Arg(argv, 3), parseInt), InProgress, "marked in-progress", now)
    ensures Arg(argv, 2) == Some("mark-done") ==>
      e == MarkEffect(file, ParseId(Arg(argv, 3), parseInt), Done, "marked done", now)
    ensures Arg(argv, 2) == Some("list") ==> e == ListEffect(file, Arg(argv, 3))
  {
    var command := Arg(argv, 2);
    if !ValidateCommand(command, ValidCommandsSet) then Effect(file, Failed(InvalidCommand))
    else match Route(command.value).value
      case Add => AddEffect(file, Arg(argv, 3), now)
      case Update => UpdateEffect(file, ParseId(Arg(argv, 3), parseInt), Arg(argv, 4), now)
      case Delete => DeleteEffect(file, ParseId(Arg(argv, 3), parseInt))
      case MarkInProgress => MarkEffect(file, ParseId(Arg(argv, 3), parseInt), InProgress, "marked in-progress", now)
      case MarkDone => MarkEffect(file, ParseId(Arg(argv, 3), parseInt), Done, "marked done", now)
      case List => ListEffect(file, Arg(argv, 3))
  }

  /**
   * `validateCommand` against the two sets of model.js: a word passes the command
   * check exactly when the switch routes it, and the filter check exactly when it
   * names a status; a missing word passes neither.
   */
  lemma ValidateCommandAgreesWithModel(word: Option<string>)
    ensures ValidateCommand(word, ValidCommandsSet) <==> word.Some? && Route(word.value).Some?
    ensures ValidateCommand(word, ValidListCommands) <==> exists s: Status :: word == Some(StatusName(s))
  {
    if word.Some? && word.value in ValidListCommands {
      Model.ValidListCommandsAreStatusNames();
      var s: Status :| StatusName(s) == word.value;
      assert word == Some(StatusName(s));
    }
  }

  /** `if (taskStatus)`: `list ""` behaves exactly as `list` with no filter word. */
  lemma EmptyFilterListsEverything(file: Option<seq<Task>>)
    ensures !HasFilter(Some(""))
    ensures ListEffect(file, Some("")) == ListEffect(file, None)
    ensures file.Some? && file.value != [] ==> ListEffect(file, Some("")).reply == Listed(file.value)
  {
  }

  /**
   * `parseInt(input[3])` of a missing word is NaN: a command that needs an id and
   * gets none fails as an invalid id, whatever `parseInt` does with real words.
   */
  lemma MissingIdIsInvalid(file: Option<seq<Task>>, command: string, parseInt: string -> Option<int>, now: Timestamp)
    requires command in {"update", "delete", "mark-in-progress", "mark-done"}
    ensures ParseId(None, parseInt) == None
    ensures Execute(file, ["node", "app.js", command], parseInt, now) == Effect(file, Failed(InvalidTaskId))
  {
    assert Arg(["node", "app.js", command], 3) == None;
  }

  /**
   * The command history replayed by `Tasks.Replay` is what the command line does
   * to an existing file: for valid arguments each command word writes exactly the
   * list `Tasks.Apply` gives for its operation (a failed lookup writes nothing).
   */
  lemma ExecuteAppliesOps(tasks: seq<Task>, word: string, description: string,
                          parseInt: string -> Option<int>, now: Timestamp)
    requires description != ""
    requires parseInt(word).Some? && parseInt(word).value >= 1
    ensures Execute(Some(tasks), ["node", "app.js", "add", description], parseInt, now).file
      == Some(Tasks.Apply(tasks, Tasks.AddOp(description, now)))
    ensures Execute(Some(tasks), ["node", "app.js", "update", word, description], parseInt, now).file
      == Some(Tasks.Apply(tasks, Tasks.UpdateOp(parseInt(word).value, description, now)))
    ensures Execute(Some(tasks), ["node", "app.js", "delete", word], parseInt, now).file
      == Some(Tasks.Apply(tasks, Tasks.DeleteOp(parseInt(word).value)))
    ensures Execute(Some(tasks), ["node", "app.js", "mark-in-progress", word], parseInt, now).file
      == Some(Tasks.Apply(tasks, Tasks.MarkOp(parseInt(word).value, InProgress, now)))
    ensures Execute(Some(tasks), ["node", "app.js", "mark-done", word], parseInt, now).file
      == Some(Tasks.Apply(tasks, Tasks.MarkOp(parseInt(word).value, Done, now)))
  {
    var id := Some(parseInt(word).value);
    assert Execute(Some(tasks), ["node", "app.js", "add", description], parseInt, now)
      == AddEffect(Some(tasks), Some(description), now) by {
      assert Route("add") == Some(Add);
    }
    assert Execute(Some(tasks), ["node", "app.js", "update", word, description], parseInt, now)
      == UpdateEffect(Some(tasks), id, Some(description), now) by {
      assert Route("update") == Some(Update);
    }
    assert Execute(Some(tasks), ["node", "app.js", "delete", word], parseInt, now)
      == DeleteEffect(Some(tasks), id) by {
      assert Route("delete") == Some(Delete);
    }
    assert Execute(Some(tasks), ["node", "app.js", "mark-in-progress", word], parseInt, now)
      == MarkEffect(Some(tasks), id, InProgress, "marked in-progress", now) by {
      assert Route("mark-in-progress") == Some(MarkInProgress);
    }
    assert Execute(Some(tasks), ["node", "app.js", "mark-done", word], parseInt, now)
      == MarkEffect(Some(tasks), id, Done, "marked done", now) by {
      assert Route("mark-done") == Some(MarkDone);
    }
  }

  /**
   * An example session: starting with no file, `add "buy milk"` creates task 1,
   * `mark-done 1` marks it done, `list done` shows it and `list todo` shows nothing
   * (an empty listing, not an error).
   */
  lemma BuyMilkSession(parseInt: string -> Option<int>, t0: Timestamp, t1: Timestamp)
    requires parseInt("1") == Some(1)
    ensures var e1 := Execute(None, ["node", "app.js", "add", "buy milk"], parseInt, t0);
      var e2 := Execute(e1.file, ["node", "app.js", "mark-done", "1"], parseInt, t1);
      e1 == Effect(Some([Task(1, "buy milk", Todo, t0, Unset)]), Saved("added")) &&
      e2 == Effect(Some([Task(1, "buy milk", Done, t0, At(t1))]), Saved("marked done")) &&
      Execute(e2.file, ["node", "app.js", "list", "done"], parseInt, t1).reply == Listed(e2.file.value) &&
      Execute(e2.file, ["node", "app.js", "list", "todo"], parseInt, t1).reply == Listed([])
  {
    var milk := Task(1, "buy milk", Todo, t0, Unset);
    var done := [milk.(status := Done, updatedAt := At(t1))];
    var e1 := Execute(None, ["node", "app.js", "add", "buy milk"], parseInt, t0);
    assert e1 == AddEffect(None, Some("buy milk"), t0) by {
      assert Route("add") == Some(Add);
    }
    assert Tasks.Add([], "buy milk", t0) == [milk];
    var e2 := Execute(e1.file, ["node", "app.js", "mark-done", "1"], parseInt, t1);
    assert e2 == MarkEffect(Some([milk]), Some(1), Done, "marked done", t1) by {
      assert Route("mark-done") == Some(MarkDone);
    }
    assert Tasks.FindIndex([milk], 1) == 0;
    assert [milk][0 := done[0]] == done;
    assert Tasks.Mark([milk], 1, Done, t1) == Some(done);
    assert Execute(Some(done), ["node", "app.js", "list", "done"], parseInt, t1) == ListEffect(Some(done), Some("done")) by {
      assert Route("list") == Some(List);
    }
    assert Execute(Some(done), ["node", "app.js", "list", "todo"], parseInt, t1) == ListEffect(Some(done), Some("todo")) by {
      assert Route("list") == Some(List);
    }
    assert Tasks.FilterByStatus(done, "done") == done;
    assert Tasks.FilterByStatus(done, "todo") == [];
  }

  /** The tool as it runs against tasks.json, one invocation per method call. */
  class Tracker {
    /** The contents of tasks.json; None while the file does not exist. */
    var file: Option<seq<Task>>

    constructor (file: Option<seq<Task>>)
      ensures this.file == file
    {
      this.file := file;
    }

    /** `getTasks`: the stored list, or FileNotFound when there is no file. */
    method GetTasks() returns (r: Result<seq<Task>, Error>)
      ensures file.None? ==> r == Err(FileNotFound)
      ensures file.Some? ==> r == Ok(file.value)
    {
      if file.None? {
        return Err(FileNotFound);
      }
      return Ok(file.value);
    }

    /** `postTasks`: replaces the whole file with `tasks`. */
    method PostTasks(tasks: seq<Task>)
      modifies this
      ensures file == Some(tasks)
    {
      file := Some(tasks);
    }

    /** `addTask`: creates the file holding `[]` if it is missing, then appends the new task. */
    method AddTask(name: Option<string>, now: Timestamp) returns (reply: Reply)
      modifies this
      ensures Effect(file, reply) == AddEffect(old(file), name, now)
    {
      if !ValidateTaskName(name) {
        return Failed(InvalidTaskName);
      }
      if file.None? {
        PostTasks([]);
        var loaded := GetTasks();
        var tasks := loaded.value;
        var id := if |tasks| == 0 then 1 else |tasks| + 1;
        tasks := tasks + [Task(id, name.value, Todo, now, Unset)];
        PostTasks(tasks);
      } else {
        ReadAndAppendData(name.value, now);
      }
      reply := Saved("added");
    }

    /** `readAndAppendData`: appends a task numbered one past the current length; an unreadable file is left alone. */
    method ReadAndAppendData(taskName: string, now: Timestamp)
      modifies this
      ensures old(file).None? ==> file == old(file)
      ensures old(file).Some? ==> file == Some(Tasks.Add(old(file).value, taskName, now))
    {
      var loaded := GetTasks();
      if loaded.Err? {
        return;
      }
      var tasks := loaded.value;
      var task := Task(|tasks| + 1, taskName, Todo, now, Unset);
      tasks := tasks + [task];
      PostTasks(tasks);
    }

    /** `updateTask`. */
    method UpdateTask(id: Option<int>, name: Option<string>, now: Timestamp) returns (reply: Reply)
      modifies this
      ensures Effect(file, reply) == UpdateEffect(old(file), id, name, now)
    {
      if !ValidateTaskId(id) {
        return Failed(InvalidTaskId);
      }
      if !ValidateTaskName(name) {
        return Failed(InvalidTaskName);
      }
      var loaded := GetTasks();
      if loaded.Err? {
        return Failed(loaded.error);
      }
      var tasks := loaded.value;
      var taskIdx := Tasks.FindIndex(tasks, id.value);
      var task := Tasks.Find(tasks, id.value);
      if taskIdx != -1 {
        var edited := task.value.(description := name.value, updatedAt := At(now));
        tasks := Tasks.SpliceReplace(tasks, taskIdx, edited);
      } else {
        return Failed(TaskNotFound);
      }
      PostTasks(tasks);
      reply := Saved("updated");
    }

    /** `deleteTask`. */
    method DeleteTask(id: Option<int>) returns (reply: Reply)
      modifies this
      ensures Effect(file, reply) == DeleteEffect(old(file), id)
    {
      if !ValidateTaskId(id) {
        return Failed(InvalidTaskId);
      }
      var loaded := GetTasks();
      if loaded.Err? {
        return Failed(loaded.error);
      }
      var tasks := loaded.value;
      var taskIdx := Tasks.FindIndex(tasks, id.value);
      if taskIdx != -1 {
        tasks := Tasks.SpliceRemove(tasks, taskIdx);
      } else {
        return Failed(TaskNotFound);
      }
      PostTasks(tasks);
      reply := Saved("deleted");
    }

    /** `markTaskInProgress` (status InProgress) and `markTaskDone` (status Done). */
    method MarkTask(id: Option<int>, status: Status, action: string, now: Timestamp) returns (reply: Reply)
      modifies this
      ensures Effect(file, reply) == MarkEffect(old(file), id, status, action, now)
    {
      if !ValidateTaskId(id) {
        return Failed(InvalidTaskId);
      }
      var loaded := GetTasks();
      if loaded.Err? {
        return Failed(loaded.error);
      }
      var tasks := loaded.value;
      var taskIdx := Tasks.FindIndex(tasks, id.value);
      var task := Tasks.Find(tasks, id.value);
      if taskIdx != -1 {
        var marked := task.value.(status := status, updatedAt := At(now));
        tasks := Tasks.SpliceReplace(tasks, taskIdx, marked);
      } else {
        return Failed(TaskNotFound);
      }
      PostTasks(tasks);
      reply := Saved(action);
    }

    /** `listTasks`: reads the file and never writes it. */
    method ListTasks(taskStatus: Option<string>) returns (reply: Reply)
      ensures reply == ListEffect(file, taskStatus).reply
    {
      if HasFilter(taskStatus) && !ValidateCommand(taskStatus, ValidListCommands) {
        return Failed(InvalidCommand);
      }
      var loaded := GetTasks();
      if loaded.Err? {
        return Failed(loaded.error);
      }
      var tasks := loaded.value;
      if |tasks| == 0 {
        return Failed(NoTasks);
      }
      if !HasFilter(taskStatus) {
        reply := Listed(tasks);
      } else {
        reply := Listed(Tasks.FilterByStatus(tasks, taskStatus.value));
      }
    }

    /** `readInputFromCLI`: validates the command word, then runs the command it names. */
    method ReadInputFromCLI(input: seq<string>, parseInt: string -> Option<int>, now: Timestamp) returns (reply: Reply)
      modifies this
      ensures Effect(file, reply) == Execute(old(file), input, parseInt, now)
    {
      var command := Arg(input, 2);
      if !ValidateCommand(command, ValidCommandsSet) {
        return Failed(InvalidCommand);
      }
      match Route(command.value).value
      case Add =>
        reply := AddTask(Arg(input, 3), now);
      case Update =>
        reply := UpdateTask(ParseId(Arg(input, 3), parseInt), Arg(input, 4), now);
      case Delete =>
        reply := DeleteTask(ParseId(Arg(input, 3), parseInt));
      case MarkInProgress =>
        reply := MarkTask(ParseId(Arg(input, 3), parseInt), InProgress, "marked in-progress", now);
      case MarkDone =>
        reply := MarkTask(ParseId(Arg(input, 3), parseInt), Done, "marked done", now);
      case List =>
        reply := ListTasks(Arg(input, 3));
    }
  }
}
