/**
 * The `Migrator` service: the connection it writes through, the deploy
 * command's output it reports to, and `run`, the apply loop, as an
 * imperative method proved against `Apply.RunUpTo`.
 */
module Service {
  import opened Wrappers
  import opened Domain
  import opened OutputMap
  import opened Store
  import opened CommandPhase
  import opened Apply

  /** How the try block was left, without the state it left behind. */
  datatype Escape =
    | Continued
    | Finished
    | Throwing(outputs: Outputs, current: Option<CommandName>, error: Throwable)
  {
    /** The try block's outcome, given the state it left. */
    function With(s: State): TryOut
    {
      match this
      case Continued => Continue(s)
      case Finished => Done(s)
      case Throwing(outputs, current, error) => Thrown(s, outputs, current, error)
    }
  }

  class Migrator {
    /** What the connection sees of `deploy_migrations` and `deploy_migrations_info`. */
    var tables: Tables
    /** The tables as they were when each open transaction level began, innermost last. */
    var snapshots: seq<Tables>
    /** Every effect so far: store calls, command runs and writes to the deploy command's output. */
    var log: seq<Event>

    function View(): State
      reads this
    {
      State(tables, snapshots, log)
    }

    /** A migrator over a connection with no open transaction. */
    constructor (initial: Tables)
      ensures View() == State(initial, [], [])
    {
      tables := initial;
      snapshots := [];
      log := [];
    }

    method BeginTransaction()
      modifies this
      ensures View() == Begun(old(View()))
    {
      snapshots := snapshots + [tables];
      log := log + [Begin];
    }

    method Commit()
      requires |snapshots| > 0
      modifies this
      ensures View() == Committed(old(View()))
    {
      snapshots := snapshots[..|snapshots| - 1];
      log := log + [Event.Commit];
    }

    method RollBack()
      requires |snapshots| > 0
      modifies this
      ensures View() == RolledBack(old(View()))
    {
      tables := snapshots[|snapshots| - 1];
      snapshots := snapshots[..|snapshots| - 1];
      log := log + [Event.RollBack];
    }

    /** `getTableQuery()->insert(...)`. */
    method InsertMarker(row: Marker)
      modifies this
      ensures View() == WithMarker(old(View()), row)
    {
      tables := tables.(markers := tables.markers + [row]);
      log := log + [Inserted(DeployMigrations, row.migration)];
    }

    /** `getInfoTableQuery()->insert(...)`. */
    method InsertInfo(row: InfoRow)
      modifies this
      ensures View() == WithInfo(old(View()), row)
    {
      tables := tables.(infos := tables.infos + [row]);
      log := log + [Inserted(DeployMigrationsInfo, row.migration)];
    }

    /** An effect outside the tables: a command's `run` call, the progress tick or the failure notice. */
    method Emit(e: Event)
      modifies this
      ensures View() == Logged(old(View()), [e])
    {
      log := log + [e];
    }

    /**
     * The catch block: notice, rollback, info row with the partial outputs
     * and the error, rethrow. `thrown` is what escapes: `e`, or the
     * throwable of the info insert itself.
     */
    method HandleFailure(id: MigrationId, i: nat, env: Env, outputs: Outputs, current: Option<CommandName>, e: Throwable)
      returns (thrown: Throwable)
      requires |snapshots| > 0
      modifies this
      ensures StepOut(View(), Failed(thrown)) == Failure(old(View()), id, i, env, outputs, current, e)
    {
      Emit(Notice(id, current, e));
      RollBack();
      match env.fault(i, InsertFailureInfo)
      case Some(refused) =>
        thrown := refused;
      case None =>
        InsertInfo(InfoRow(id, outputs, Some(Detail(e, current)), env.clock(i)));
        thrown := e;
    }

    /**
     * The inner `foreach`: each command, in map order, becomes
     * `$currentCommand`, is resolved and run, and has its lines captured;
     * the first throwable ends the loop and is returned in `failure`.
     */
    method RunCommands(m: Migration, i: nat, env: Env)
      returns (outputs: Outputs, current: Option<CommandName>, failure: Option<Throwable>)
      modifies this
      ensures var p := Commands(m, i, env.exec, |m.commands|);
        && outputs == p.outputs && current == p.current && failure == p.failure
        && View() == Logged(old(View()), p.ran)
    {
      outputs, current, failure := [], None, None;
      ghost var ran: seq<Event> := [];
      var j := 0;
      while j < |m.commands| && failure.None?
        invariant 0 <= j <= |m.commands|
        invariant Commands(m, i, env.exec, j) == Phase(outputs, current, ran, failure)
        invariant tables == old(tables) && snapshots == old(snapshots) && log == old(log) + ran
      {
        var c := m.commands[j];
        ghost var before := Phase(outputs, current, ran, failure);
        current := Some(c.name);
        match env.exec(i, j) {
          case ResolveFails(e) =>
            failure := Some(e);
          case RunFails(partial, e) =>
            Emit(Ran(m.id, c.name, c.arguments));
            ran := ran + [Ran(m.id, c.name, c.arguments)];
            outputs := Put(outputs, c.name, partial);
            failure := Some(e);
          case Ok(lines) =>
            Emit(Ran(m.id, c.name, c.arguments));
            ran := ran + [Ran(m.id, c.name, c.arguments)];
            outputs := Put(outputs, c.name, lines);
        }
        assert Phase(outputs, current, ran, failure) == Attempt(before, m.id, c, env.exec(i, j));
        j := j + 1;
      }
      if failure.Some? {
        CommandsStable(m, i, env.exec, j, |m.commands|);
      }
    }

    /** The try block of one pass of the outer loop: migration `m`, the i-th of the run. */
    method TryMigration(m: Migration, i: nat, env: Env) returns (t: Escape)
      modifies this
      ensures TryBlock(old(View()), m, i, env) == t.With(View())
    {
      BeginTransaction();
      match env.fault(i, CountMarkers)
      case Some(e) =>
        return Throwing([], None, e);
      case None =>
      if Count(tables.markers, m.id) > 0 {
        return Continued;
      }
      var outputs, current, failure := RunCommands(m, i, env);
      if failure.Some? {
        return Throwing(outputs, current, failure.value);
      }
      Emit(Progress);
      match env.fault(i, StoreOp.InsertMarker)
      case Some(e) =>
        return Throwing(outputs, current, e);
      case None =>
      InsertMarker(Marker(m.id, env.clock(i)));
      match env.fault(i, StoreOp.InsertInfo)
      case Some(e) =>
        return Throwing(outputs, current, e);
      case None =>
      InsertInfo(InfoRow(m.id, outputs, None, env.clock(i)));
      Commit();
      return Finished;
    }

    /** One pass of the outer loop: the try block, then the catch block if it threw. */
    method RunMigration(m: Migration, i: nat, env: Env) returns (r: StepResult)
      modifies this
      ensures StepOut(View(), r) == Step(old(View()), m, i, env)
    {
      ghost var s := View();
      var t := TryMigration(m, i, env);
      match t
      case Continued =>
        r := Skipped;
      case Finished =>
        r := Applied;
      case Throwing(outputs, current, e) =>
        TryBlockFrame(s, m, i, env);
        var thrown := HandleFailure(m.id, i, env, outputs, current, e);
        r := Failed(thrown);
    }

    /** `Migrator::run`: the migrations in collection order, stopping at the first throwable. */
    method Run(ms: seq<Migration>, env: Env) returns (r: RunResult)
      modifies this
      ensures RunOut(View(), r) == RunUpTo(old(View()), ms, env, |ms|)
    {
      var k := 0;
      while k < |ms|
        invariant 0 <= k <= |ms|
        invariant RunUpTo(old(View()), ms, env, k) == RunOut(View(), Completed)
      {
        var sr := RunMigration(ms[k], k, env);
        if sr.Failed? {
          RunHalts(old(View()), ms, env, k + 1, |ms|);
          return Threw(sr.error);
        }
        k := k + 1;
      }
      return Completed;
    }
  }
}
