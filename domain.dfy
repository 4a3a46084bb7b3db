/**
 * The values the migration apply loop works with: migrations and their
 * command maps, the outcome of running one command, the rows of the two
 * audit tables, and the ordered effects the loop produces.
 */
module Domain {
  import opened Wrappers

  /** A migration's identity: the class name `get_class($migration)`. */
  type MigrationId = string
  /** A key of a migration's command map: the name the container resolves. */
  type CommandName = string
  /** An instant as `Carbon::now()` gives it; its contents are opaque here. */
  type Timestamp = int

  /** A PHP throwable, kept as the fields the audit record copies from it. */
  datatype Throwable = Throwable(trace: string, message: string, code: string, file: string, line: int)

  /** The structured error that the failure path stores in the info row. */
  datatype ErrorDetail = ErrorDetail(
    trace: string, message: string, code: string, file: string, line: int,
    errorCommand: Option<CommandName>)

  /** The error detail for throwable `e` raised while `command` was the current command. */
  function Detail(e: Throwable, command: Option<CommandName>): ErrorDetail
  {
    ErrorDetail(e.trace, e.message, e.code, e.file, e.line, command)
  }

  /** One parameter of the array handed to `ArrayInput`: an argument or option name and its value. */
  datatype Argument = Argument(key: string, value: string)

  /** One entry `name => arguments` of a migration's command map. */
  datatype Command = Command(name: CommandName, arguments: seq<Argument>)

  /** A migration: its class name and its command map, in map order. */
  datatype Migration = Migration(id: MigrationId, commands: seq<Command>)

  /**
   * What happens when the loop reaches one command: it is resolved and runs
   * to the end having written `lines`; it is resolved and its `run` throws
   * after writing `partial`; or resolving or preparing it throws before `run`.
   */
  datatype Outcome =
    | Ok(lines: seq<string>)
    | RunFails(partial: seq<string>, error: Throwable)
    | ResolveFails(error: Throwable)

  /** The store calls whose failure the loop handles. */
  datatype StoreOp = CountMarkers | InsertMarker | InsertInfo | InsertFailureInfo

  /**
   * Everything outside the loop: `exec(i, j)` is the outcome of the j-th
   * command of the i-th migration of the run, `fault(i, op)` the throwable
   * (if any) that store call `op` raises for the i-th migration, and
   * `clock(i)` the instant `Carbon::now()` gives while the i-th migration
   * is recorded.
   */
  datatype Env = Env(
    exec: (nat, nat) -> Outcome,
    fault: (nat, StoreOp) -> Option<Throwable>,
    clock: nat -> Timestamp)

  /** One entry `$outputs[name] = lines` of the per-migration output array. */
  datatype OutputEntry = OutputEntry(command: CommandName, lines: seq<string>)
  /** The `$outputs` array: an ordered map from command name to captured lines. */
  type Outputs = seq<OutputEntry>

  /** A row of `deploy_migrations`. */
  datatype Marker = Marker(migration: MigrationId, createdAt: Timestamp)
  /** A row of `deploy_migrations_info`; `error` is null on the success path. */
  datatype InfoRow = InfoRow(migration: MigrationId, output: Outputs, error: Option<ErrorDetail>, createdAt: Timestamp)

  /** `getTableQuery()` and `getInfoTableQuery()`: the two audit tables. */
  datatype Table = DeployMigrations | DeployMigrationsInfo

  /**
   * The observable effects of the loop, in the order they happen: the
   * connection's transaction calls, each call of a command's `run`, the
   * progress tick and failure notice written to the deploy command's output,
   * and each successful insert.
   */
  datatype Event =
    | Begin
    | Commit
    | RollBack
    | Ran(migration: MigrationId, command: CommandName, arguments: seq<Argument>)
    | Progress
    | Inserted(table: Table, migration: MigrationId)
    | Notice(migration: MigrationId, activeCommand: Option<CommandName>, error: Throwable)
}
