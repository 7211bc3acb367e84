# task-tracker in Dafny

A model of the command-line task tracker `app.js`, run once per command as
`node app.js <command> ...`. Each changing command that passes its checks loads the
task list from `tasks.json`, changes it in memory and writes the whole list back;
`list` only reads, and a command that fails writes nothing. The six commands are `add`, `update`,
`delete`, `mark-in-progress`, `mark-done` and `list`; `model.js` holds the set of
command names, the set of statuses a `list` filter may name, and the field list
of a task record.

- `wrappers.dfy` — `Option` (a missing command-line word, NaN) and `Result`.
- `model.dfy` (module `Model`) — `model.js`: the `Status` and `Command`
  enumerations with their stored names, the two command sets, `TaskModel`, the
  `Task` record and its view as the stored JavaScript object.
- `tasks.dfy` (module `Tasks`) — the collection logic of `app.js` as functions on
  `seq<Task>`: `findIndex`/`find`, the two `splice` forms, add, update, mark,
  delete and the status filter, with the id invariants and a replay of command
  histories.
- `app.dfy` (module `App`) — the validators, the routing of the command word,
  one function per command giving the file contents and the reply afterwards,
  and class `Tracker`, whose field `file` is the contents of `tasks.json` (None
  while the file does not exist) and whose methods perform the commands step by
  step (load, `findIndex`, `splice`, save) and are proved equal to those functions.

Behaviour of `app.js` a reader might not expect, all of it modelled as written:

- A new task's id is the list length plus one (`app.js:66`, `app.js:200`), not
  the largest id plus one. After a delete this can hand out an id that is still
  in use (`Tasks.DeleteThenAddRepeatsId`); ids are guaranteed unique only for
  histories without deletes (`Tasks.NoDeletesIdsUnique`). Because lookups take the first
  match, the older of two tasks sharing an id shadows the newer one.
- A missing `tasks.json` is created (holding `[]`) by `add` only; `update`,
  `delete`, the marks and `list` fail because `getTasks` throws on it.
- `update` checks the id, then the description, and only then reads the file,
  so an empty description is reported before an unknown id.
- `list ""` (an empty filter word) is falsy in JavaScript and lists every task.

## Model

| member | source | states |
|---|---|---|
| `Model.ToObject` | model.js:10-16 | the stored object of a task has exactly the keys of `taskModel`; id and description are stored as given and the status as a member of `validListCommands` |
| `Model.ToObjectInjective` | app.js:56-64 | two tasks stored as the same object are the same task: the record shape built by `add` loses no field |
| `Model.TaskModelFieldsDistinct` | model.js:10-16 | `taskModel` names five distinct fields |
| `Model.StatusNameInjective` | model.js:18-22 | every status app.js assigns (`todo`, `in-progress`, `done`) is a valid `list` filter, and distinct statuses have distinct names |
| `Model.ValidListCommandsAreStatusNames` | model.js:18-22 | `validListCommands` has three members, exactly the names of the three statuses |
| `Model.ValidCommandsSetAreCommandNames` | model.js:1-8 | `validCommandsSet` has six members, exactly the names of the six commands |
| `Tasks.FindIndex` | app.js:88 | the result is -1 exactly when no task has the id; otherwise it is an index holding the id with no earlier index holding it |
| `Tasks.Find` | app.js:89 | `find` returns the task at the index `findIndex` returns, and nothing when that is -1 |
| `Tasks.SpliceReplace` | app.js:94 | `splice(i, 1, t)` is the list with position `i` replaced by `t` |
| `Tasks.SpliceRemove` | app.js:112 | `splice(i, 1)` drops position `i`: one shorter, earlier tasks in place, later ones shifted down by one, the same multiset minus the removed task |
| `Tasks.Add` | app.js:199-207 | exactly one task appended at the end with id old length + 1, the given description, status `todo`, the given creation time and no `updatedAt`; earlier tasks unchanged |
| `Tasks.Update` | app.js:88-97 | fails exactly when no task has the id; otherwise only the first match changes: new description and `updatedAt`, same id, status and `createdAt`; every other task and the length unchanged |
| `Tasks.Mark` | app.js:127-136 | fails exactly when no task has the id; otherwise only the first match changes: new status and `updatedAt`, same id, description and `createdAt`; everything else unchanged |
| `Tasks.Delete` | app.js:109-115 | fails exactly when no task has the id; otherwise the first match is removed: one shorter, the tasks before and after it kept in order, the same multiset minus that task |
| `Tasks.FilterByStatus` | app.js:180 | a task is in the result exactly when it is in the list and its stored status equals the filter; never longer than the list |
| `Tasks.FilterDistributes` | app.js:180 | filtering preserves order: the filter of a concatenation is the concatenation of the filters |
| `Tasks.FilterIdempotent` | app.js:180 | filtering a filtered list by the same status changes nothing |
| `Tasks.FiltersPartition` | app.js:177-181 | the `todo`, `in-progress` and `done` listings together hold as many tasks as the whole list |
| `Tasks.FindIndexSameIds` | app.js:127-128 | the lookup depends only on the ids at each position |
| `Tasks.MarkTwice` | app.js:151-154 | marking the same task with the same status twice equals marking it once at the later time |
| `Tasks.DeleteUniqueRemovesId` | app.js:109-112 | when ids are unique, no task with the deleted id remains |
| `Tasks.MarkOneDoneListsIt` | app.js:151-181 | if no task is `done`, after `mark-done` of one of them `list done` shows exactly that task |
| `Tasks.ApplyNeverResetsToTodo` | app.js:120-160 | add, update and the two marks never turn a task that is not `todo` back into `todo`, and never shorten the list |
| `Tasks.ApplyKeepsIdsSequential` | app.js:56-69 | add, update and mark keep the ids numbered 1..n in list order |
| `Tasks.NoDeletesKeepIdsSequential` | app.js:199-207 | a whole history without deletes keeps ids numbered 1..n |
| `Tasks.NoDeletesIdsUnique` | app.js:200 | from no tasks, a history without deletes never gives two tasks the same id |
| `Tasks.DeleteThenAddRepeatsId` | app.js:112 | add, add, delete 1, add yields two tasks with id 2: the length + 1 rule reuses a live id after a delete |
| `App.ValidateTaskId` | app.js:260-265 | an id is accepted exactly when it is a number of at least 1: NaN, 0 and negatives are refused |
| `App.Route` | app.js:14-36 | a word selects a command exactly when it is in `validCommandsSet`, and then the command with that name |
| `App.RouteRoundTrip` | app.js:14-32 | every command is selected by its own name |
| `App.AddEffect` | app.js:39-77 | `add` fails exactly when the name is missing or empty (`validateTaskName`), and then leaves the file alone; otherwise the stored list (empty for a missing file) gets the new task appended |
| `App.UpdateEffect` | app.js:79-100 | each failure (bad id, bad name, missing file, unknown id) happens exactly in its case and leaves the file alone; with a valid id and name and the task present it replies `updated` and writes `Tasks.Update` of the stored list |
| `App.DeleteEffect` | app.js:102-118 | each failure happens exactly in its case and leaves the file alone; with a valid id and the task present it replies `deleted` and writes `Tasks.Delete` of the stored list |
| `App.MarkEffect` | app.js:120-160 | each failure happens exactly in its case and leaves the file alone; with a valid id and the task present it replies with its action and writes `Tasks.Mark` of the stored list |
| `App.ListEffect` | app.js:162-182 | never writes; an invalid filter, a missing file and an empty list each fail exactly in their case (InvalidCommand, FileNotFound, NoTasks) and nothing else fails; without a filter lists every task, with one exactly `Tasks.FilterByStatus` of the list, in list order |
| `App.Execute` | app.js:7-37 | a failed or listing invocation leaves the file alone; it fails as an invalid command exactly when the word is not a command or a `list` filter is not a status; each of the six command words runs its own command's effect on the arguments that follow it |
| `App.ValidateCommandAgreesWithModel` | app.js:246-251 | `validateCommand` passes a word against `validCommandsSet` exactly when the switch routes it, and against `validListCommands` exactly when it names a status; a missing word passes neither |
| `App.EmptyFilterListsEverything` | app.js:165-181 | the `if (taskStatus)` test treats an empty filter word as no filter: `list ""` lists every task |
| `App.MissingIdIsInvalid` | app.js:80-83 | `parseInt` of a missing id word is NaN, so `update`, `delete` and the marks without an id fail as an invalid id and leave the file alone |
| `App.ExecuteAppliesOps` | app.js:14-32 | on an existing file with a valid id word and description, `add`, `update`, `delete`, `mark-in-progress` and `mark-done` write exactly what `Tasks.Apply` gives for the matching operation, so the id lemmas about `Tasks.Replay` hold of the command line |
| `App.BuyMilkSession` | app.js:39-182 | from no file: `add "buy milk"` stores task 1 as `todo`, `mark-done 1` makes it `done` with `updatedAt` set, `list done` shows it, `list todo` shows an empty list |
| `App.Tracker.GetTasks` | app.js:220-230 | returns the stored list, or FileNotFound when the file is missing |
| `App.Tracker.PostTasks` | app.js:232-244 | the file afterwards holds exactly the given list |
| `App.Tracker.AddTask` | app.js:39-77 | creates a missing file, appends the task and ends in the state and reply `App.AddEffect` gives |
| `App.Tracker.ReadAndAppendData` | app.js:184-218 | with a file present, writes it back with one task appended numbered length + 1; a missing file is left alone |
| `App.Tracker.UpdateTask` | app.js:79-100 | ends in the state and reply `App.UpdateEffect` gives |
| `App.Tracker.DeleteTask` | app.js:102-118 | ends in the state and reply `App.DeleteEffect` gives |
| `App.Tracker.MarkTask` | app.js:120-160 | ends in the state and reply `App.MarkEffect` gives, for `in-progress` and for `done` |
| `App.Tracker.ListTasks` | app.js:162-182 | replies as `App.ListEffect` says and changes nothing |
| `App.Tracker.ReadInputFromCLI` | app.js:7-37 | ends in the state and reply `App.Execute` gives for the same command line |

## Left out

- File access (`fs.access`, `readFile`, `readFileSync`, `writeFile`, `writeFileSync`) is the field `Tracker.file`. Read and write failures other than a missing file are not modelled, and every write is taken to succeed.
- `JSON.parse` and `JSON.stringify` are not modelled. The file holds typed task records, so the parse-error branches of `getTasks` and `readAndAppendData` are not modelled. Neither are hand-edited files whose ids are not numbers or whose statuses are not one of the three.
- `new Date()` is the `now` parameter (milliseconds since the epoch), supplied by the caller.
- `parseInt` on command-line words is the `parseInt` parameter; None stands for NaN.
- `console` output and `process.exit` become the `Reply` value. The message texts are not modelled, so the different confirmations printed by `postTasks` and `readAndAppendData` are both `Saved("added")`.
- Asynchronous ordering (the `fs.access` and `writeFile` callbacks) is not modelled: each invocation runs to completion before the next.
- The "Please enter a valid command" message for fewer than three words is not modelled. The code does not exit there; the `validateCommand` that follows rejects the missing word, which the model reports as `InvalidCommand`.
- The `default` branch of the command switch is not modelled as a separate case. It cannot be reached after `validateCommand`.
