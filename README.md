# Migration apply loop of deploy-migrations

A Dafny model of `Migrator::run`, the loop that applies deploy migrations.
Each migration is a class with an ordered command map (`name => arguments`).
For each migration, in collection order, the loop does the following:

- it opens a transaction;
- it asks `deploy_migrations` whether a marker row with the migration's class name exists, and skips the migration (`continue`) if one does;
- otherwise it runs the commands in map order, storing each command's output lines in `$outputs`, also when that command's `run` throws;
- on success it ticks progress, inserts the marker row and an info row into `deploy_migrations_info`, and commits;
- on any throwable it writes a failure notice, rolls back, inserts an info row holding the partial outputs and a structured error, and rethrows, which ends the whole run.

The model has three layers:

- **Specification functions.** `CommandPhase.Commands` is the inner loop. `Apply.TryBlock` is the try block, `Apply.Failure` the catch block, `Apply.Step` one pass of the outer loop, and `Apply.RunUpTo` the outer loop over a prefix of the migrations. All of them are functions over a `Store.State`, which holds:
  - the two tables;
  - a stack of snapshots, one per open transaction level;
  - an ordered log of effects: transaction calls, command `run` calls, the progress tick, the failure notice and successful inserts.
- **The imperative service.** `Service.Migrator` is a class whose fields are that state. `Run` and `RunCommands` are loops with invariants; `TryMigration`, `RunMigration` and `HandleFailure` are straight-line methods. Each is proved equal to its specification function.
- **Lemmas.** These state the rules about the specification functions: skipping, ordering, output capture, the success and failure paths, progress timing and halting. The run-level lemmas go through `Apply.Loop`, the outer loop over an arbitrary pass function, which `Apply.RunUpToIsLoop` shows equal to `Apply.RunUpTo`.

The world outside the loop is one `Domain.Env` value:

- `exec(i, j)` is the outcome of the j-th command of the i-th migration: `Ok(lines)`, `RunFails(partialLines, e)` or `ResolveFails(e)`;
- `fault(i, op)` is the throwable, if any, that a store call raises: the marker count, the marker insert, the info insert, or the failure-path info insert;
- `clock(i)` stands for `Carbon::now()`.

Behaviour of the code that the model keeps as written:

- **Skip path.** The skip path's `continue` (src/Lib/Service/Migrator.php:61) leaves the transaction opened at line 54 open. After a skip, one more level is open (`Apply.SkipChangesNothing`), and later commits and rollbacks act on the inner level. The model keeps this as written.
- **Notice and rollback order.** The catch block writes the notice before it rolls back (lines 107-110), and the model keeps that order.
- **Failure-path insert.** The failure-path info insert (line 112) runs on the same connection right after `rollBack`. If it throws, its throwable escapes instead of the original one, and no info row is written. The model has this as the `InsertFailureInfo` fault.
- **Migration name.** `$currentMigration` is never null inside the loop (line 50), so the failure row always names the migration.

## Model

| member | source | states |
|---|---|---|
| OutputMap.Lookup | src/Lib/Service/Migrator.php:79-84 | reading `$outputs[$name]` finds a value exactly when the key is one of the array's keys |
| OutputMap.PutAssigns | src/Lib/Service/Migrator.php:79-84 | `$outputs[$name] = $lines` makes the key map to the lines, appends a new key at the end or keeps an existing key's place, and leaves every other key's value alone |
| Store.Count | src/Lib/Service/Migrator.php:56-58 | the marker count is positive exactly when some `deploy_migrations` row carries the migration's class name, and never exceeds the row count |
| CommandPhase.CommandsStable | src/Lib/Service/Migrator.php:76-82 | once a command has thrown, the remaining commands of the map add no run, no output and no change of `$currentCommand` |
| CommandPhase.CommandsHalt | src/Lib/Service/Migrator.php:66-82 | the command phase fails exactly when some command throws, with the first such throwable; `$currentCommand` names that command, or else the last command, and is null for an empty map |
| CommandPhase.CommandsOutputStep | src/Lib/Service/Migrator.php:66-82 | one pass of the inner loop either calls `run` on the next command, storing its lines under its name and recording the call, or leaves `$outputs` and the calls as they were when the command fails to resolve or an earlier one threw |
| CommandPhase.CommandsRanInOrder | src/Lib/Service/Migrator.php:66-77 | the `run` calls are the commands of the map in order, each at most once, and stop after the command whose `run` threw |
| CommandPhase.CommandsOutputs | src/Lib/Service/Migrator.php:76-84 | `$outputs` has exactly one entry per command whose `run` was called, in map order, holding the lines that command wrote (partial lines for the one that threw), and no entry for any other command |
| CommandPhase.ResolveFailureLeavesNoEntry | src/Lib/Service/Migrator.php:67-73 | a command that fails to resolve or prepare gets no `$outputs` entry, yet `$currentCommand` already names it and its throwable ends the phase |
| CommandPhase.RunFailureCapturesPartial | src/Lib/Service/Migrator.php:76-82 | a command whose `run` throws has its partial lines stored under its name before the rethrow, and later commands have no entry |
| Apply.SkippedIffMarked | src/Lib/Service/Migrator.php:58-62 | a migration is skipped exactly when the marker query succeeds and finds a row with its class name |
| Apply.SkipChangesNothing | src/Lib/Service/Migrator.php:54-62 | a skipped migration runs no command, emits no progress tick and inserts no row; its transaction level stays open |
| Apply.AppliedIff | src/Lib/Service/Migrator.php:87-102 | a migration is applied exactly when it is not marked, every command returns normally and both audit inserts succeed |
| Apply.SuccessEffects | src/Lib/Service/Migrator.php:87-102 | on success the commands run in map order, followed by the progress tick, one marker row `{migration, created_at}`, one info row and the commit; the transaction level is closed |
| Apply.SuccessInfoRow | src/Lib/Service/Migrator.php:95-100 | the success info row names the migration, has no error, and maps every command, in map order, to the lines it wrote |
| Apply.FailureLeavesNoMarker | src/Lib/Service/Migrator.php:89-93 | after a failure the marker table and the open transaction levels are as they were before the migration began |
| Apply.RerunAttemptsAgain | src/Lib/Service/Migrator.php:58-62 | a migration that failed after its marker query is not skipped when it is run again |
| Apply.FailureAudit | src/Lib/Service/Migrator.php:103-127 | on failure the last effects are the notice, the rollback and the info insert, in that order; the row carries the error detail of exactly the rethrown throwable and the time `clock(i)`; if that insert throws, no row is added and its throwable escapes |
| Apply.FailureNotice | src/Lib/Service/Migrator.php:104-109 | whether or not the failure-path insert throws, the notice names the migration, the throwable the try block raised, and `$currentCommand`: null exactly when the marker query threw or the map is empty, else the command that threw, or the last command when an audit insert threw |
| Apply.EarlyFailureLog | src/Lib/Service/Migrator.php:53-127 | a pass that fails in its marker query or in a command logs the transaction begin, the `run` calls it reached in map order, and then directly the notice, the rollback and the failure-path insert: no progress tick and no marker insert in between |
| Apply.TryBlockThrows | src/Lib/Service/Migrator.php:53-102 | the try block throws exactly when the marker query, a command or an audit insert throws, throws the first such throwable, and leaves `$currentCommand` null, on the throwing command, or on the last command |
| Apply.RethrownError | src/Lib/Service/Migrator.php:56-127 | a pass throws exactly when the marker query, a command, or one of the audit inserts throws; the throwable that leaves `run` is the first of these, that is the one the try block raised, unless the failure-path insert throws, in which case it is the insert's |
| Apply.ErrorAttribution | src/Lib/Service/Migrator.php:104-122 | `error_command` is null exactly when the marker query threw or the map is empty; otherwise it names the command that threw, or the last command when an audit insert threw; the row's output is the command phase's `$outputs` |
| Apply.OneInfoPerAttempt | src/Lib/Service/Migrator.php:95-125 | every migration that is not skipped adds exactly one info row naming it, unless the failure-path insert throws; a skipped migration adds none |
| Apply.ProgressTiming | src/Lib/Service/Migrator.php:87 | the progress tick is emitted exactly when the migration is attempted and all its commands return, and on a later failure it comes before the notice |
| Apply.NoProgressUnlessCompleted | src/Lib/Service/Migrator.php:58-87 | a skip, a failing marker query and a throwing command all leave no progress tick |
| Apply.ProgressBeforeAudit | src/Lib/Service/Migrator.php:87-102 | once all commands return, the tick directly follows their runs, before either audit insert, and a failing insert's notice comes after it |
| Apply.RunHalts | src/Lib/Service/Migrator.php:127 | once a migration has thrown, no later migration is attempted: the outcome of the run is fixed |
| Apply.HaltOnFailure | src/Lib/Service/Migrator.php:48-130 | when the k-th migration fails, `run` ends by throwing that failure's throwable in the state it left, and the marker table is as it was before that migration began |
| Apply.RunInOrder | src/Lib/Service/Migrator.php:48-102 | when nothing throws, no migration is marked yet and no class appears twice in the collection, `run` returns; every migration is applied in collection order with its commands in map order; one marker per migration is appended in the same order; no transaction level is left open |
| Apply.StepMarkers | src/Lib/Service/Migrator.php:56-102 | a pass either leaves the marker table as it was, or is applied and appends one marker for its class, which the table did not hold before |
| Apply.ExecutedStep | src/Lib/Service/Migrator.php:53-128 | whatever its outcome, a pass adds to the `run` calls recorded so far exactly the calls of its commands in map order, up to and including the first whose `run` throws, none for a command that fails to resolve, and none when the marker query throws or finds a row |
| Apply.LoopExecuted | src/Lib/Service/Migrator.php:48-130 | for an outer loop over any pass that adds a known list of `run` calls, the calls after k passes are those lists in pass order, none after the first pass that throws |
| Apply.RunExecuted | src/Lib/Service/Migrator.php:48-130 | for any starting state and any outcomes, the `run` calls of the whole run are, in collection order, those of every migration the marker check lets through, each in map order up to its first throwable, and none after the first migration that throws |
| Apply.UniqueCount | src/Lib/Service/Migrator.php:56-58 | when no two marker rows name the same class, the marker query counts at most one row |
| Apply.LoopKeepsMarkers | src/Lib/Service/Migrator.php:48-130 | an outer loop whose every pass keeps the marker table as a prefix and keeps it unique keeps both across all its passes |
| Apply.RunKeepsMarkers | src/Lib/Service/Migrator.php:48-130 | `run` never removes or changes a marker row present when it started, and it never gives a class a second marker: unique markers stay unique |
| Apply.MarkedAtStartSkipped | src/Lib/Service/Migrator.php:56-62 | a migration whose class was marked when `run` started is skipped when the loop reaches it, unless its marker query throws |
| Service.Migrator.constructor | src/Lib/Service/Migrator.php:32-39 | the migrator starts over the given tables with no open transaction and an empty log |
| Service.Migrator.Emit | src/Lib/Service/Migrator.php:77-109 | records one effect that touches no table, such as a `run` call, the progress tick or the failure notice, at the end of the log, and changes nothing else |
| Service.Migrator.BeginTransaction | src/Lib/Service/Migrator.php:54 | opens a level that remembers the current tables |
| Service.Migrator.Commit | src/Lib/Service/Migrator.php:102 | closes the innermost level and keeps its changes |
| Service.Migrator.RollBack | src/Lib/Service/Migrator.php:110 | closes the innermost level and restores the tables it remembered |
| Service.Migrator.InsertMarker | src/Lib/Service/Migrator.php:136-139 | appends one row to `deploy_migrations` and nothing else |
| Service.Migrator.InsertInfo | src/Lib/Service/Migrator.php:145-148 | appends one row to `deploy_migrations_info` and nothing else |
| Service.Migrator.HandleFailure | src/Lib/Service/Migrator.php:103-127 | the catch block leaves the state that `Apply.Failure` gives and returns the throwable that escapes |
| Service.Migrator.RunCommands | src/Lib/Service/Migrator.php:66-85 | the inner loop leaves `$outputs`, `$currentCommand`, the throwable and the run calls that `CommandPhase.Commands` gives for the whole map |
| Service.Migrator.TryMigration | src/Lib/Service/Migrator.php:53-102 | the try block ends (continue, commit or throwable) in the state that `Apply.TryBlock` gives |
| Service.Migrator.RunMigration | src/Lib/Service/Migrator.php:53-128 | one pass of the outer loop leaves the state and result that `Apply.Step` gives |
| Service.Migrator.Run | src/Lib/Service/Migrator.php:46-131 | `run` leaves the state and result that `Apply.RunUpTo` gives for the whole collection |

## Left out

- Container resolution and `setLaravel` (src/Lib/Service/Migrator.php:69-70): the foreign service locator is replaced by `Env.exec`. That function gives each command's outcome, and `ResolveFails` stands for any throwable raised before `run`.
- `ArrayInput` and the `Output` class (lines 72-73): arguments are an opaque list of key/value pairs, and a command's output is its list of lines.
- Database driver semantics (lines 54, 102, 110): a transaction is a snapshot of the two tables on a stack. The model does not cover durability, savepoint names, or whether the connection returns to autocommit after `rollBack`. `beginTransaction`, `commit` and `rollBack` never throw in the model.
- The commands' own database writes: `Store.State` holds only the two audit tables. A rollback in the model therefore undoes only audit-table changes, not the command effects that the per-migration transaction is there to make atomic.
- `json_encode` and `Carbon::now()` (lines 91, 97-98, 114-123): outputs and error details stay structured values. Every `Carbon::now()` call made for the i-th migration gives the same opaque instant `clock(i)`.
- The text of the failure notice (lines 107-109): it is one `Notice` event naming the migration, the current command and the throwable. The blank line and the formatting are not modelled.
- Exception trace, file, line, message and code: opaque fields of `Throwable`, copied unchanged into the error detail. The code is kept as a string, since `getCode()` gives a SQLSTATE string for the database exceptions the store calls raise.
- Type-level distinctness of command names: PHP array keys are unique, so the output lemmas require `DistinctNames`. `Put` itself also models the overwrite of an existing key.
- Calls assumed never to throw: `$migration->getCommands()` (line 64), `progressAdvance()` (line 87) and the three `writeln` calls of the failure notice (lines 107-109). The model therefore does not cover a throwable from `getCommands()`, which would leave `error_command` null for a non-empty map, nor a throwable from `progressAdvance()`, which the catch block would handle after every command had run. It also does not cover a throwable from a `writeln`, which would escape the catch block before `rollBack` and before the failure-path insert.
