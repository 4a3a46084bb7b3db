/**
 * `Migrator::run` as a function of the state it starts from: one step per
 * migration (begin, skip check, command phase, success or failure path)
 * and the outer loop that stops at the first throwable.
 */
module Apply {
  import opened Wrappers
  import opened Domain
  import opened OutputMap
  import opened Store
  import opened CommandPhase

  /** How one pass of the outer loop ends: `continue`, falling through, or rethrowing. */
  datatype StepResult = Skipped | Applied | Failed(error: Throwable)
  datatype StepOut = StepOut(state: State, result: StepResult)

  /** How `run` ends: it returns, or a throwable escapes it. */
  datatype RunResult = Completed | Threw(error: Throwable)
  datatype RunOut = RunOut(state: State, result: RunResult)

  /**
   * The catch block: the notice naming the migration and the current
   * command, the rollback, the info row with the partial outputs and the
   * error, and the rethrow. When that insert throws, its throwable escapes
   * instead of `e`.
   */
  function Failure(s: State, id: MigrationId, i: nat, env: Env, outputs: Outputs, current: Option<CommandName>, e: Throwable): StepOut
    requires |s.snapshots| > 0
  {
    var rolled := RolledBack(Logged(s, [Notice(id, current, e)]));
    match env.fault(i, InsertFailureInfo)
    case Some(thrown) => StepOut(rolled, Failed(thrown))
    case None => StepOut(WithInfo(rolled, InfoRow(id, outputs, Some(Detail(e, current)), env.clock(i))), Failed(e))
  }

  /**
   * How the try block ends: the `continue` of the skip check, falling
   * through after the commit, or a throwable together with `$outputs` and
   * `$currentCommand` as they stood when it was raised.
   */
  datatype TryOut =
    | Continue(state: State)
    | Done(state: State)
    | Thrown(state: State, outputs: Outputs, current: Option<CommandName>, error: Throwable)

  /** The try block of one pass of the outer loop, for migration `m`, the i-th of the run. */
  function TryBlock(s: State, m: Migration, i: nat, env: Env): TryOut
  {
    var b := Begun(s);
    match env.fault(i, CountMarkers)
    case Some(e) => Thrown(b, [], None, e)
    case None =>
      if Count(s.tables.markers, m.id) > 0 then Continue(b)
      else
        var p := Commands(m, i, env.exec, |m.commands|);
        var c := Logged(b, p.ran);
        if p.failure.Some? then Thrown(c, p.outputs, p.current, p.failure.value)
        else
          var t := Logged(c, [Progress]);
          match env.fault(i, InsertMarker)
          case Some(e) => Thrown(t, p.outputs, p.current, e)
          case None =>
            var u := WithMarker(t, Marker(m.id, env.clock(i)));
            match env.fault(i, InsertInfo)
            case Some(e) => Thrown(u, p.outputs, p.current, e)
            case None => Done(Committed(WithInfo(u, InfoRow(m.id, p.outputs, None, env.clock(i)))))
  }

  /** One pass of the outer loop: the try block, and the catch block when it throws. */
  function Step(s: State, m: Migration, i: nat, env: Env): StepOut
  {
    match TryBlock(s, m, i, env)
    case Continue(x) => StepOut(x, Skipped)
    case Done(x) => StepOut(x, Applied)
    case Thrown(x, outputs, current, e) =>
      assert |x.snapshots| > 0 by { TryBlockFrame(s, m, i, env); }
      Failure(x, m.id, i, env, outputs, current, e)
  }

  /**
   * A throwable leaves the try block with the level it opened still open
   * over the tables the step started from, and with the step's earlier
   * effects still in the log.
   */
  lemma TryBlockFrame(s: State, m: Migration, i: nat, env: Env)
    ensures var r := TryBlock(s, m, i, env);
      r.Thrown? ==>
        && r.state.snapshots == s.snapshots + [s.tables]
        && |r.state.log| > |s.log|
        && r.state.log[..|s.log| + 1] == s.log + [Begin]
  {
  }

  /** The outcome of the outer loop after it has been offered the first `k` migrations. */
  function RunUpTo(s: State, ms: seq<Migration>, env: Env, k: nat): RunOut
    requires k <= |ms|
  {
    if k == 0 then RunOut(s, Completed)
    else
      Advance(RunUpTo(s, ms, env, k - 1), ms[k - 1], k - 1, env)
  }

  /** One more pass of the outer loop, unless a throwable has already left it. */
  function Advance(r: RunOut, m: Migration, i: nat, env: Env): RunOut
  {
    if r.result.Threw? then r
    else
      var o := Step(r.state, m, i, env);
      RunOut(o.state, if o.result.Failed? then Threw(o.result.error) else Completed)
  }

  /** The migration reaches its command phase: the marker check ran and found no row. */
  predicate Attempted(s: State, m: Migration, i: nat, env: Env)
  {
    env.fault(i, CountMarkers).None? && Count(s.tables.markers, m.id) == 0
  }

  /** Every command of the i-th migration `m` returns normally. */
  predicate AllCommandsSucceed(m: Migration, i: nat, env: Env)
  {
    FirstHalt(env.exec, i, |m.commands|) == |m.commands|
  }

  /** The events a step appended to the log. */
  function NewEvents(s: State, o: StepOut): seq<Event>
  {
    if |s.log| <= |o.state.log| then o.state.log[|s.log|..] else []
  }

  // ---------------------------------------------------------------------------
  // Skip check

  /** A migration is skipped exactly when the marker query succeeds and finds a row. */
  lemma SkippedIffMarked(s: State, m: Migration, i: nat, env: Env)
    ensures Step(s, m, i, env).result == Skipped <==> env.fault(i, CountMarkers).None? && Count(s.tables.markers, m.id) > 0
  {
    if env.fault(i, CountMarkers).None? && Count(s.tables.markers, m.id) == 0 {
      var p := Commands(m, i, env.exec, |m.commands|);
      if p.failure.None? {
        assert Step(s, m, i, env).result != Skipped;
      }
    }
  }

  /**
   * A skipped migration runs no command, ticks no progress and inserts no
   * row; the transaction opened for it is neither committed nor rolled back,
   * so one more level stays open.
   */
  lemma SkipChangesNothing(s: State, m: Migration, i: nat, env: Env)
    requires Step(s, m, i, env).result == Skipped
    ensures var o := Step(s, m, i, env);
      && o.state.tables == s.tables
      && o.state.log == s.log + [Begin]
      && o.state.snapshots == s.snapshots + [s.tables]
  {
    SkippedIffMarked(s, m, i, env);
  }

  // ---------------------------------------------------------------------------
  // Success path

  /** A migration is applied exactly when it is attempted, every command succeeds and both audit inserts succeed. */
  lemma AppliedIff(s: State, m: Migration, i: nat, env: Env)
    ensures Step(s, m, i, env).result == Applied <==>
      Attempted(s, m, i, env) && AllCommandsSucceed(m, i, env)
      && env.fault(i, InsertMarker).None? && env.fault(i, InsertInfo).None?
  {
    CommandsHalt(m, i, env.exec, |m.commands|);
  }

  /**
   * On the success path every command runs once, in map order; then the
   * progress tick, one marker row, one info row holding each command's
   * lines and no error, and the commit, in that order. No level stays open.
   */
  lemma SuccessEffects(s: State, m: Migration, i: nat, env: Env)
    requires Step(s, m, i, env).result == Applied
    ensures var o := Step(s, m, i, env).state;
      && o.snapshots == s.snapshots
      && o.tables.markers == s.tables.markers + [Marker(m.id, env.clock(i))]
      && |o.tables.infos| == |s.tables.infos| + 1
      && o.tables.infos[..|s.tables.infos|] == s.tables.infos
      && o.log == s.log + [Begin] + RanEvents(m.id, m.commands)
                  + [Progress, Inserted(DeployMigrations, m.id), Inserted(DeployMigrationsInfo, m.id), Commit]
  {
    AppliedIff(s, m, i, env);
    CommandsRanInOrder(m, i, env.exec, |m.commands|);
    assert m.commands[..|m.commands|] == m.commands;
  }

  /** The info row of an applied migration names it, has no error, and maps each command, in order, to the lines it wrote. */
  lemma SuccessInfoRow(s: State, m: Migration, i: nat, env: Env)
    requires DistinctNames(m.commands)
    requires Step(s, m, i, env).result == Applied
    ensures var o := Step(s, m, i, env).state;
      && |o.tables.infos| == |s.tables.infos| + 1
      && var row := o.tables.infos[|s.tables.infos|];
      && row.migration == m.id && row.error == None && row.createdAt == env.clock(i)
      && Keys(row.output) == Names(m.commands)
      && forall t :: 0 <= t < |m.commands| ==> Lookup(row.output, m.commands[t].name) == Written(env.exec(i, t))
  {
    AppliedIff(s, m, i, env);
    CommandsOutputs(m, i, env.exec, |m.commands|);
    assert m.commands[..|m.commands|] == m.commands;
  }

  // ---------------------------------------------------------------------------
  // Failure path

  /** A failed step leaves the marker table and the open levels as they were before it began. */
  lemma FailureLeavesNoMarker(s: State, m: Migration, i: nat, env: Env)
    requires Step(s, m, i, env).result.Failed?
    ensures var o := Step(s, m, i, env).state;
      && o.tables.markers == s.tables.markers
      && o.snapshots == s.snapshots
  {
  }

  /**
   * A failure leaves the marker table as it was, so a migration that failed
   * after its marker query found no row is not skipped when run again.
   */
  lemma RerunAttemptsAgain(s: State, m: Migration, i: nat, env: Env, i': nat, env': Env)
    requires Step(s, m, i, env).result.Failed?
    requires env.fault(i, CountMarkers).None?
    ensures Step(Step(s, m, i, env).state, m, i', env').result != Skipped
  {
    var o := Step(s, m, i, env);
    SkippedIffMarked(s, m, i, env);
    FailureLeavesNoMarker(s, m, i, env);
    SkippedIffMarked(o.state, m, i', env');
  }

  /**
   * On the failure path the last effects are, in order: the notice naming
   * the migration and the current command, the rollback, and the info row;
   * the row carries the error detail of exactly the throwable that is
   * rethrown. When that insert throws, no row is added and its own
   * throwable escapes.
   */
  lemma FailureAudit(s: State, m: Migration, i: nat, env: Env)
    requires Step(s, m, i, env).result.Failed?
    ensures var o := Step(s, m, i, env); var log := o.state.log; var infos := o.state.tables.infos;
      && |log| >= 3
      && log[|log| - 1] == (if env.fault(i, InsertFailureInfo).None? then Inserted(DeployMigrationsInfo, m.id) else RollBack)
      && (env.fault(i, InsertFailureInfo).None? ==>
           && |infos| == |s.tables.infos| + 1
           && infos[..|s.tables.infos|] == s.tables.infos
           && var row := infos[|s.tables.infos|];
           && row.migration == m.id
           && row.error.Some?
           && row.error.value == Detail(o.result.error, row.error.value.errorCommand)
           && row.createdAt == env.clock(i)
           && log[|log| - 3..] == [Notice(m.id, row.error.value.errorCommand, o.result.error), RollBack, Inserted(DeployMigrationsInfo, m.id)])
      && (env.fault(i, InsertFailureInfo).Some? ==>
           && infos == s.tables.infos
           && o.result.error == env.fault(i, InsertFailureInfo).value
           && log[|log| - 2].Notice? && log[|log| - 2].migration == m.id)
  {
    var r := TryBlock(s, m, i, env);
    TryBlockFrame(s, m, i, env);
    CatchBlock(r.state, m.id, i, env, r.outputs, r.current, r.error);
  }

  /**
   * Whether or not the failure-path insert throws, the notice names the
   * migration, the command `$currentCommand` held when the try block threw
   * (none when the marker query threw or the map is empty, else the command
   * that threw, or the last command when an audit insert threw), and the
   * throwable the try block raised.
   */
  lemma FailureNotice(s: State, m: Migration, i: nat, env: Env)
    requires Step(s, m, i, env).result.Failed?
    ensures var log := Step(s, m, i, env).state.log;
      var back := if env.fault(i, InsertFailureInfo).None? then 3 else 2;
      var h := FirstHalt(env.exec, i, |m.commands|);
      && |log| >= back
      && log[|log| - back].Notice?
      && var notice := log[|log| - back];
      && notice.migration == m.id
      && Raised(s, m, i, env) == Some(notice.error)
      && (notice.activeCommand.None? <==> env.fault(i, CountMarkers).Some? || |m.commands| == 0)
      && (env.fault(i, CountMarkers).None? && h < |m.commands| ==> notice.activeCommand == Some(m.commands[h].name))
      && (env.fault(i, CountMarkers).None? && h == |m.commands| && h > 0 ==> notice.activeCommand == Some(m.commands[h - 1].name))
  {
    var r := TryBlock(s, m, i, env);
    SkippedIffMarked(s, m, i, env);
    TryBlockThrows(s, m, i, env);
    ThrownLog(s, m, i, env);
  }

  /**
   * A pass that fails in its marker query or in a command logs `Begin`, the
   * `run` calls it reached, and then directly the catch block's events: no
   * tick and no insert comes between them.
   */
  lemma EarlyFailureLog(s: State, m: Migration, i: nat, env: Env)
    requires Step(s, m, i, env).result.Failed?
    requires !(Attempted(s, m, i, env) && AllCommandsSucceed(m, i, env))
    ensures var r := TryBlock(s, m, i, env);
      && r.Thrown?
      && Step(s, m, i, env).state.log == s.log + [Begin] + StepRuns(s, m, i, env) + FailureEvents(m.id, i, env, r.current, r.error)
  {
    SkippedIffMarked(s, m, i, env);
    ThrownLog(s, m, i, env);
    if env.fault(i, CountMarkers).None? {
      CommandsHalt(m, i, env.exec, |m.commands|);
      CommandsRanInOrder(m, i, env.exec, |m.commands|);
    }
  }

  /**
   * The try block throws exactly when `Raised` gives a throwable, and then it
   * throws that one, with `$currentCommand` as `FailureNotice` describes it.
   */
  lemma TryBlockThrows(s: State, m: Migration, i: nat, env: Env)
    ensures var r := TryBlock(s, m, i, env); var h := FirstHalt(env.exec, i, |m.commands|);
      && (r.Thrown? <==> Raised(s, m, i, env).Some?)
      && (r.Thrown? ==>
           && r.error == Raised(s, m, i, env).value
           && (r.current.None? <==> env.fault(i, CountMarkers).Some? || |m.commands| == 0)
           && (env.fault(i, CountMarkers).None? && h < |m.commands| ==> r.current == Some(m.commands[h].name))
           && (env.fault(i, CountMarkers).None? && h == |m.commands| && h > 0 ==> r.current == Some(m.commands[h - 1].name)))
  {
    CommandsHalt(m, i, env.exec, |m.commands|);
  }

  /** The catch block restores the tables the try block opened on and appends at most the audit row. */
  lemma CatchBlock(x: State, id: MigrationId, i: nat, env: Env, outputs: Outputs, current: Option<CommandName>, e: Throwable)
    requires |x.snapshots| > 0
    ensures var o := Failure(x, id, i, env, outputs, current, e);
      var top := x.snapshots[|x.snapshots| - 1];
      && o.state.log == x.log + FailureEvents(id, i, env, current, e)
      && (env.fault(i, InsertFailureInfo).None? ==>
           && o.state.tables.infos == top.infos + [InfoRow(id, outputs, Some(Detail(e, current)), env.clock(i))]
           && o.result == Failed(e))
      && (env.fault(i, InsertFailureInfo).Some? ==>
           && o.state.tables.infos == top.infos
           && o.result == Failed(env.fault(i, InsertFailureInfo).value))
  {
  }

  /**
   * The error row's `error_command` is null exactly when the failure came
   * before any command was reached (the marker query threw, or the map is
   * empty); otherwise it names the command that threw, or the last command
   * when an audit insert threw. Its output is the command phase's
   * `$outputs`, or empty when the marker query threw.
   */
  lemma ErrorAttribution(s: State, m: Migration, i: nat, env: Env)
    requires Step(s, m, i, env).result.Failed?
    requires env.fault(i, InsertFailureInfo).None?
    ensures var o := Step(s, m, i, env).state;
      && |o.tables.infos| == |s.tables.infos| + 1
      && var row := o.tables.infos[|s.tables.infos|];
      && var h := FirstHalt(env.exec, i, |m.commands|);
      && row.error.Some?
      && (row.error.value.errorCommand.None? <==> env.fault(i, CountMarkers).Some? || |m.commands| == 0)
      && (env.fault(i, CountMarkers).Some? ==> row.output == [])
      && (env.fault(i, CountMarkers).None? ==>
           && row.output == Commands(m, i, env.exec, |m.commands|).outputs
           && (h < |m.commands| ==> row.error.value.errorCommand == Some(m.commands[h].name))
           && (h == |m.commands| && h > 0 ==> row.error.value.errorCommand == Some(m.commands[h - 1].name)))
  {
    SkippedIffMarked(s, m, i, env);
    CommandsHalt(m, i, env.exec, |m.commands|);
  }

  /**
   * The throwable the try block raises, if any: the marker query's, the
   * first throwing command's, or that of the marker or info insert.
   */
  function Raised(s: State, m: Migration, i: nat, env: Env): Option<Throwable>
  {
    var h := FirstHalt(env.exec, i, |m.commands|);
    if env.fault(i, CountMarkers).Some? then env.fault(i, CountMarkers)
    else if Count(s.tables.markers, m.id) > 0 then None
    else if h < |m.commands| then Some(env.exec(i, h).error)
    else if env.fault(i, InsertMarker).Some? then env.fault(i, InsertMarker)
    else env.fault(i, InsertInfo)
  }

  /**
   * A step fails exactly when its try block raises a throwable, and the
   * caught throwable is what `run` rethrows, unless the failure-path info
   * insert throws, whose own throwable then escapes instead.
   */
  lemma RethrownError(s: State, m: Migration, i: nat, env: Env)
    ensures var o := Step(s, m, i, env); var raised := Raised(s, m, i, env);
      && (o.result.Failed? <==> raised.Some?)
      && (raised.Some? && env.fault(i, InsertFailureInfo).None? ==> o.result == Failed(raised.value))
      && (raised.Some? && env.fault(i, InsertFailureInfo).Some? ==> o.result == Failed(env.fault(i, InsertFailureInfo).value))
  {
    CommandsHalt(m, i, env.exec, |m.commands|);
  }

  /**
   * Exactly one info row is written per migration that is not skipped,
   * unless the failure-path insert itself throws; a skipped migration
   * writes none.
   */
  lemma OneInfoPerAttempt(s: State, m: Migration, i: nat, env: Env)
    ensures var o := Step(s, m, i, env); var infos := o.state.tables.infos;
      && (o.result == Skipped ==> infos == s.tables.infos)
      && (o.result.Failed? && env.fault(i, InsertFailureInfo).Some? ==> infos == s.tables.infos)
      && (o.result.Applied? || (o.result.Failed? && env.fault(i, InsertFailureInfo).None?) ==>
           && |infos| == |s.tables.infos| + 1
           && infos[..|s.tables.infos|] == s.tables.infos
           && infos[|s.tables.infos|].migration == m.id)
  {
    if Step(s, m, i, env).result == Skipped {
      SkipChangesNothing(s, m, i, env);
    }
    if Step(s, m, i, env).result.Failed? {
      FailureAudit(s, m, i, env);
    }
  }

  // ---------------------------------------------------------------------------
  // Progress timing

  /** The events a failure appends after the try block's own, none of them a progress tick. */
  function FailureEvents(id: MigrationId, i: nat, env: Env, current: Option<CommandName>, e: Throwable): (r: seq<Event>)
  {
    [Notice(id, current, e), RollBack] + (if env.fault(i, InsertFailureInfo).None? then [Inserted(DeployMigrationsInfo, id)] else [])
  }

  /**
   * The progress tick is emitted exactly when every command has returned,
   * once, and before the audit inserts: a failing insert finds the tick
   * already emitted, ahead of the failure notice.
   */
  lemma ProgressTiming(s: State, m: Migration, i: nat, env: Env)
    ensures var o := Step(s, m, i, env); var added := NewEvents(s, o);
      && (Progress in added <==> Attempted(s, m, i, env) && AllCommandsSucceed(m, i, env))
      && (Progress in added && o.result.Failed? ==>
           exists a, b :: 0 <= a < b < |added| && added[a] == Progress && added[b].Notice?)
  {
    if Attempted(s, m, i, env) && AllCommandsSucceed(m, i, env) {
      ProgressBeforeAudit(s, m, i, env);
    } else {
      NoProgressUnlessCompleted(s, m, i, env);
    }
  }

  /** When the try block throws, the step's log is the try block's followed by the catch block's events. */
  lemma ThrownLog(s: State, m: Migration, i: nat, env: Env)
    ensures var r := TryBlock(s, m, i, env);
      r.Thrown? ==> Step(s, m, i, env).state.log == r.state.log + FailureEvents(m.id, i, env, r.current, r.error)
  {
    var r := TryBlock(s, m, i, env);
    if r.Thrown? {
      TryBlockFrame(s, m, i, env);
      CatchBlock(r.state, m.id, i, env, r.outputs, r.current, r.error);
    }
  }

  /** A skipped migration, a failing marker query and a throwing command all leave no progress tick. */
  lemma NoProgressUnlessCompleted(s: State, m: Migration, i: nat, env: Env)
    requires !(Attempted(s, m, i, env) && AllCommandsSucceed(m, i, env))
    ensures Progress !in NewEvents(s, Step(s, m, i, env))
  {
    var r := TryBlock(s, m, i, env);
    ThrownLog(s, m, i, env);
    var tail: seq<Event>;
    if env.fault(i, CountMarkers).Some? || Count(s.tables.markers, m.id) > 0 {
      tail := [Begin];
    } else {
      var p := Commands(m, i, env.exec, |m.commands|);
      CommandsHalt(m, i, env.exec, |m.commands|);
      CommandsRanInOrder(m, i, env.exec, |m.commands|);
      tail := [Begin] + p.ran;
    }
    assert Progress !in tail;
    assert r.state.log == s.log + tail;
    if r.Thrown? {
      assert Step(s, m, i, env).state.log == s.log + (tail + FailureEvents(m.id, i, env, r.current, r.error));
    }
  }

  /** On reaching the audit inserts, the log holds the tick right after the command runs, whatever the inserts do. */
  lemma ProgressBeforeAudit(s: State, m: Migration, i: nat, env: Env)
    requires Attempted(s, m, i, env) && AllCommandsSucceed(m, i, env)
    ensures var o := Step(s, m, i, env); var added := NewEvents(s, o);
      var k := |Commands(m, i, env.exec, |m.commands|).ran|;
      && 1 + k < |added| && added[1 + k] == Progress
      && (o.result.Failed? ==> 2 + k < |added| && (added[2 + k].Notice? || (3 + k < |added| && added[3 + k].Notice?)))
  {
    var p := Commands(m, i, env.exec, |m.commands|);
    var tail := AuditTail(s, m, i, env);
    TickAt(NewEvents(s, Step(s, m, i, env)), p.ran, tail);
  }

  /** After the tick, a step logs the audit inserts and commit, or at most the marker insert and then the notice. */
  lemma AuditTail(s: State, m: Migration, i: nat, env: Env) returns (tail: seq<Event>)
    requires Attempted(s, m, i, env) && AllCommandsSucceed(m, i, env)
    ensures var o := Step(s, m, i, env);
      && NewEvents(s, o) == [Begin] + Commands(m, i, env.exec, |m.commands|).ran + [Progress] + tail
      && (o.result.Failed? ==> 0 < |tail| && (tail[0].Notice? || (1 < |tail| && tail[1].Notice?)))
  {
    var p := Commands(m, i, env.exec, |m.commands|);
    var o := Step(s, m, i, env);
    var r := TryBlock(s, m, i, env);
    AuditReached(s, m, i, env);
    var insert := if env.fault(i, InsertMarker).Some? then [] else [Inserted(DeployMigrations, m.id)];
    if r.Thrown? {
      ThrownLog(s, m, i, env);
      tail := insert + FailureEvents(m.id, i, env, r.current, r.error);
    } else {
      tail := insert + [Inserted(DeployMigrationsInfo, m.id), Commit];
    }
    assert NewEvents(s, o) == [Begin] + p.ran + [Progress] + tail;
  }

  /** Where the tick and the events after it sit in `[Begin] + ran + [Progress] + tail`. */
  lemma TickAt(added: seq<Event>, ran: seq<Event>, tail: seq<Event>)
    requires added == [Begin] + ran + [Progress] + tail
    ensures |added| == 2 + |ran| + |tail| && added[1 + |ran|] == Progress
    ensures forall j :: 0 <= j < |tail| ==> added[2 + |ran| + j] == tail[j]
  {
  }

  /** Once every command has returned, the try block has logged the runs, the tick and at most the marker insert, or the whole success path. */
  lemma AuditReached(s: State, m: Migration, i: nat, env: Env)
    requires Attempted(s, m, i, env) && AllCommandsSucceed(m, i, env)
    ensures var r := TryBlock(s, m, i, env); var p := Commands(m, i, env.exec, |m.commands|);
      var insert := if env.fault(i, InsertMarker).Some? then [] else [Inserted(DeployMigrations, m.id)];
      && (r.Thrown? ==> r.state.log == s.log + [Begin] + p.ran + [Progress] + insert)
      && (!r.Thrown? ==> Step(s, m, i, env).state.log == s.log + [Begin] + p.ran + [Progress] + insert + [Inserted(DeployMigrationsInfo, m.id), Commit])
  {
    CommandsHalt(m, i, env.exec, |m.commands|);
  }

  // ---------------------------------------------------------------------------
  // The outer loop

  /** Once a migration has thrown, the later migrations change nothing: none of them is attempted. */
  lemma {:induction false} RunHalts(s: State, ms: seq<Migration>, env: Env, k: nat, n: nat)
    requires k <= n <= |ms|
    requires RunUpTo(s, ms, env, k).result.Threw?
    ensures RunUpTo(s, ms, env, n) == RunUpTo(s, ms, env, k)
  {
    if n > k {
      RunHalts(s, ms, env, k, n - 1);
    }
  }

  /**
   * When the k-th migration fails, `run` throws its throwable, ends in the
   * state that failure left, and the marker table is as it was before that
   * migration began.
   */
  lemma HaltOnFailure(s: State, ms: seq<Migration>, env: Env, k: nat)
    requires k < |ms|
    requires RunUpTo(s, ms, env, k).result == Completed
    requires Step(RunUpTo(s, ms, env, k).state, ms[k], k, env).result.Failed?
    ensures var before := RunUpTo(s, ms, env, k).state; var o := Step(before, ms[k], k, env);
      var final := RunUpTo(s, ms, env, |ms|);
      && final == RunOut(o.state, Threw(o.result.error))
      && final.state.tables.markers == before.tables.markers
  {
    RunHalts(s, ms, env, k + 1, |ms|);
    FailureLeavesNoMarker(RunUpTo(s, ms, env, k).state, ms[k], k, env);
  }

  /** The `run` calls recorded in a log, in order. */
  function Executed(log: seq<Event>): seq<Event>
  {
    if log == [] then []
    else Executed(log[..|log| - 1]) + (if log[|log| - 1].Ran? then [log[|log| - 1]] else [])
  }

  lemma {:induction false} ExecutedAppend(a: seq<Event>, b: seq<Event>)
    ensures Executed(a + b) == Executed(a) + Executed(b)
  {
    if b == [] {
      assert a + b == a;
    } else {
      ExecutedAppend(a, b[..|b| - 1]);
      assert (a + b)[..|a + b| - 1] == a + b[..|b| - 1];
    }
  }

  lemma {:induction false} ExecutedRuns(id: MigrationId, cs: seq<Command>)
    ensures Executed(RanEvents(id, cs)) == RanEvents(id, cs)
  {
    if cs != [] {
      var last := |cs| - 1;
      ExecutedRuns(id, cs[..last]);
      assert RanEvents(id, cs)[..last] == RanEvents(id, cs[..last]);
    }
  }

  lemma {:induction false} ExecutedNone(log: seq<Event>)
    requires forall k :: 0 <= k < |log| ==> !log[k].Ran?
    ensures Executed(log) == []
  {
    if log != [] {
      ExecutedNone(log[..|log| - 1]);
    }
  }

  /** Every command of every migration, migration by migration, each in map order. */
  function Flatten(ms: seq<Migration>): seq<Event>
  {
    if ms == [] then []
    else Flatten(ms[..|ms| - 1]) + RanEvents(ms[|ms| - 1].id, ms[|ms| - 1].commands)
  }

  /** No store call throws, every command returns, no migration is marked yet and no class appears twice. */
  predicate CleanRun(s: State, ms: seq<Migration>, env: Env)
  {
    && (forall i, op :: 0 <= i < |ms| ==> env.fault(i, op).None?)
    && (forall i :: 0 <= i < |ms| ==> AllCommandsSucceed(ms[i], i, env))
    && (forall i :: 0 <= i < |ms| ==> Count(s.tables.markers, ms[i].id) == 0)
    && (forall a, b :: 0 <= a < b < |ms| ==> ms[a].id != ms[b].id)
  }

  /** A clean step applies the migration, adds its marker and records its commands' runs in order. */
  lemma CleanStep(s: State, m: Migration, i: nat, env: Env)
    requires Attempted(s, m, i, env) && AllCommandsSucceed(m, i, env)
    requires env.fault(i, InsertMarker).None? && env.fault(i, InsertInfo).None?
    ensures var o := Step(s, m, i, env);
      && o.result == Applied
      && o.state.snapshots == s.snapshots
      && o.state.tables.markers == s.tables.markers + [Marker(m.id, env.clock(i))]
      && Executed(o.state.log) == Executed(s.log) + RanEvents(m.id, m.commands)
  {
    AppliedIff(s, m, i, env);
    SuccessEffects(s, m, i, env);
    ExecutedAround(s.log, m.id, m.commands, [Progress, Inserted(DeployMigrations, m.id), Inserted(DeployMigrationsInfo, m.id), Commit]);
  }

  /** A step's log adds exactly the runs between its `Begin` and the events that are no run. */
  lemma ExecutedAround(log: seq<Event>, id: MigrationId, cs: seq<Command>, rest: seq<Event>)
    requires forall k :: 0 <= k < |rest| ==> !rest[k].Ran?
    ensures Executed(log + [Begin] + RanEvents(id, cs) + rest) == Executed(log) + RanEvents(id, cs)
  {
    ExecutedNone([Begin]);
    ExecutedNone(rest);
    ExecutedRuns(id, cs);
    ExecutedAppend(log, [Begin]);
    ExecutedAppend(log + [Begin], RanEvents(id, cs));
    ExecutedAppend(log + [Begin] + RanEvents(id, cs), rest);
  }

  /** Rows appended after `initial` that do not name `id` leave it unmarked when `initial` does not mark it. */
  lemma NotYetMarked(initial: seq<Marker>, id: MigrationId, markers: seq<Marker>)
    requires Count(initial, id) == 0
    requires |initial| <= |markers|
    requires markers[..|initial|] == initial
    requires forall j :: |initial| <= j < |markers| ==> markers[j].migration != id
    ensures Count(markers, id) == 0
  {
    forall j | 0 <= j < |initial|
      ensures markers[j].migration != id
    {
      assert markers[j] == initial[j];
    }
  }

  /** The markers a clean prefix of k migrations added do not name the k-th. */
  lemma PrefixMarkersDiffer(s: State, ms: seq<Migration>, env: Env, k: nat, r: RunOut)
    requires k < |ms| && CleanRun(s, ms, env) && CleanPrefix(s, ms, env, k, r)
    ensures var n0 := |s.tables.markers|;
      forall j :: n0 <= j < |r.state.tables.markers| ==> r.state.tables.markers[j].migration != ms[k].id
  {
    var n0 := |s.tables.markers|;
    forall j | n0 <= j < |r.state.tables.markers|
      ensures r.state.tables.markers[j].migration != ms[k].id
    {
      assert r.state.tables.markers[n0 + (j - n0)] == Marker(ms[j - n0].id, env.clock(j - n0));
    }
  }

  /**
   * After the first k migrations of a clean run: `run` has not thrown, no
   * level is left open, the executed commands are those of the first k
   * migrations in order, and their markers follow the earlier rows in order.
   */
  predicate CleanPrefix(s: State, ms: seq<Migration>, env: Env, k: nat, r: RunOut)
    requires k <= |ms|
  {
    var markers := r.state.tables.markers;
    && r.result == Completed
    && r.state.snapshots == s.snapshots
    && Executed(r.state.log) == Executed(s.log) + Flatten(ms[..k])
    && |markers| == |s.tables.markers| + k
    && markers[..|s.tables.markers|] == s.tables.markers
    && (forall t :: 0 <= t < k ==> markers[|s.tables.markers| + t] == Marker(ms[t].id, env.clock(t)))
  }

  lemma CleanPrefixNext(s: State, ms: seq<Migration>, env: Env, k: nat, r: RunOut, o: StepOut)
    requires k < |ms| && CleanRun(s, ms, env) && CleanPrefix(s, ms, env, k, r)
    requires o == Step(r.state, ms[k], k, env)
    ensures o.result == Applied && CleanPrefix(s, ms, env, k + 1, RunOut(o.state, Completed))
  {
    PrefixMarkersDiffer(s, ms, env, k, r);
    NotYetMarked(s.tables.markers, ms[k].id, r.state.tables.markers);
    assert env.fault(k, CountMarkers).None? && env.fault(k, InsertMarker).None? && env.fault(k, InsertInfo).None?;
    assert AllCommandsSucceed(ms[k], k, env);
    CleanStep(r.state, ms[k], k, env);
    CleanPrefixExtend(s, ms, env, k, r, o.state);
  }

  /** Adding one applied migration's marker and runs to a clean prefix of k migrations gives one of k + 1. */
  lemma CleanPrefixExtend(s: State, ms: seq<Migration>, env: Env, k: nat, r: RunOut, next: State)
    requires k < |ms| && CleanPrefix(s, ms, env, k, r)
    requires next.snapshots == r.state.snapshots
    requires next.tables.markers == r.state.tables.markers + [Marker(ms[k].id, env.clock(k))]
    requires Executed(next.log) == Executed(r.state.log) + RanEvents(ms[k].id, ms[k].commands)
    ensures CleanPrefix(s, ms, env, k + 1, RunOut(next, Completed))
  {
    assert ms[..k + 1][..k] == ms[..k];
    assert Flatten(ms[..k + 1]) == Flatten(ms[..k]) + RanEvents(ms[k].id, ms[k].commands);
    var n0, markers := |s.tables.markers|, next.tables.markers;
    assert markers[..n0] == r.state.tables.markers[..n0];
    forall t | 0 <= t < k + 1
      ensures markers[n0 + t] == Marker(ms[t].id, env.clock(t))
    {
      if t < k {
        assert markers[n0 + t] == r.state.tables.markers[n0 + t];
      }
    }
  }

  /**
   * When nothing throws, no migration is marked yet and no class appears
   * twice in the collection, `run` returns normally, every migration is
   * applied in collection order with its commands in map order, and one
   * marker per migration is added, in the same order.
   */
  lemma {:induction false} RunInOrder(s: State, ms: seq<Migration>, env: Env, k: nat)
    requires k <= |ms|
    requires CleanRun(s, ms, env)
    ensures var r := RunUpTo(s, ms, env, k); var markers := r.state.tables.markers;
      && r.result == Completed
      && r.state.snapshots == s.snapshots
      && Executed(r.state.log) == Executed(s.log) + Flatten(ms[..k])
      && |markers| == |s.tables.markers| + k
      && markers[..|s.tables.markers|] == s.tables.markers
      && (forall t :: 0 <= t < k ==> markers[|s.tables.markers| + t] == Marker(ms[t].id, env.clock(t)))
  {
    RunInOrderPrefix(s, ms, env, k);
  }

  lemma {:induction false} RunInOrderPrefix(s: State, ms: seq<Migration>, env: Env, k: nat)
    requires k <= |ms|
    requires CleanRun(s, ms, env)
    ensures CleanPrefix(s, ms, env, k, RunUpTo(s, ms, env, k))
  {
    if k == 0 {
      assert ms[..0] == [];
    } else {
      RunInOrderPrefix(s, ms, env, k - 1);
      var r := RunUpTo(s, ms, env, k - 1);
      var o := Step(r.state, ms[k - 1], k - 1, env);
      CleanPrefixNext(s, ms, env, k - 1, r, o);
    }
  }

  // ---------------------------------------------------------------------------
  // Runs of any pass and of any run

  /** The `run` calls one pass makes: the reached commands', in map order, or none when the marker check does not let it through. */
  function StepRuns(s: State, m: Migration, i: nat, env: Env): seq<Event>
  {
    if Attempted(s, m, i, env) then RanEvents(m.id, m.commands[..Captured(env.exec, i, |m.commands|)]) else []
  }

  /** Whatever a pass does, the runs it adds to the log are those of `StepRuns`, in order. */
  lemma ExecutedStep(s: State, m: Migration, i: nat, env: Env)
    ensures Executed(Step(s, m, i, env).state.log) == Executed(s.log) + StepRuns(s, m, i, env)
  {
    var cs, rest := StepLog(s, m, i, env);
    ExecutedAround(s.log, m.id, cs, rest);
  }

  /**
   * Every pass logs `Begin`, then the runs of `StepRuns`, then only events
   * that are no run.
   */
  lemma StepLog(s: State, m: Migration, i: nat, env: Env) returns (cs: seq<Command>, rest: seq<Event>)
    ensures RanEvents(m.id, cs) == StepRuns(s, m, i, env)
    ensures forall k :: 0 <= k < |rest| ==> !rest[k].Ran?
    ensures Step(s, m, i, env).state.log == s.log + [Begin] + RanEvents(m.id, cs) + rest
  {
    var o := Step(s, m, i, env);
    SkippedIffMarked(s, m, i, env);
    match o.result
    case Skipped =>
      SkipChangesNothing(s, m, i, env);
      cs, rest := [], [];
      assert RanEvents(m.id, []) == [];
    case Applied =>
      AppliedIff(s, m, i, env);
      SuccessEffects(s, m, i, env);
      cs, rest := m.commands, [Progress, Inserted(DeployMigrations, m.id), Inserted(DeployMigrationsInfo, m.id), Commit];
      assert Captured(env.exec, i, |m.commands|) == |m.commands|;
      assert m.commands[..|m.commands|] == m.commands;
    case Failed(_) =>
      cs, rest := FailedLog(s, m, i, env);
  }

  /** A failing pass logs `Begin`, the runs of the commands it reached, and then only events that are no run. */
  lemma FailedLog(s: State, m: Migration, i: nat, env: Env) returns (cs: seq<Command>, rest: seq<Event>)
    requires Step(s, m, i, env).result.Failed?
    ensures RanEvents(m.id, cs) == StepRuns(s, m, i, env)
    ensures forall k :: 0 <= k < |rest| ==> !rest[k].Ran?
    ensures Step(s, m, i, env).state.log == s.log + [Begin] + RanEvents(m.id, cs) + rest
  {
    var r := TryBlock(s, m, i, env);
    SkippedIffMarked(s, m, i, env);
    ThrownLog(s, m, i, env);
    var tail: seq<Event>;
    if env.fault(i, CountMarkers).Some? {
      cs, tail := [], [];
      assert RanEvents(m.id, []) == [];
    } else {
      cs, tail := AttemptedLog(s, m, i, env);
    }
    rest := tail + FailureEvents(m.id, i, env, r.current, r.error);
  }

  /** A pass whose marker check lets it through and then throws has logged `Begin`, its runs and at most the tick and the marker insert. */
  lemma AttemptedLog(s: State, m: Migration, i: nat, env: Env) returns (cs: seq<Command>, tail: seq<Event>)
    requires Attempted(s, m, i, env) && TryBlock(s, m, i, env).Thrown?
    ensures RanEvents(m.id, cs) == StepRuns(s, m, i, env)
    ensures forall k :: 0 <= k < |tail| ==> !tail[k].Ran?
    ensures TryBlock(s, m, i, env).state.log == s.log + [Begin] + RanEvents(m.id, cs) + tail
  {
    var p := Commands(m, i, env.exec, |m.commands|);
    CommandsHalt(m, i, env.exec, |m.commands|);
    CommandsRanInOrder(m, i, env.exec, |m.commands|);
    cs := m.commands[..Captured(env.exec, i, |m.commands|)];
    tail :=
      if p.failure.Some? then []
      else if env.fault(i, InsertMarker).Some? then [Progress]
      else [Progress, Inserted(DeployMigrations, m.id)];
  }

  /** The `run` calls of the first k passes of the outer loop, pass by pass, none after the first throwable. */
  function RunRuns(s: State, ms: seq<Migration>, env: Env, k: nat): seq<Event>
    requires k <= |ms|
  {
    LoopRuns(PassOf(ms, env), RunsOf(ms, env), |ms|, s, k)
  }

  /**
   * For any starting state and any outcomes, the runs `run` records are,
   * in collection order, those of each migration the marker check let
   * through, each in map order up to its first throwable, and none after
   * the first migration that throws.
   */
  lemma RunExecuted(s: State, ms: seq<Migration>, env: Env, k: nat)
    requires k <= |ms|
    ensures Executed(RunUpTo(s, ms, env, k).state.log) == Executed(s.log) + RunRuns(s, ms, env, k)
  {
    forall st: State, i: nat | i < |ms|
      ensures Executed(PassOf(ms, env)(st, i).state.log) == Executed(st.log) + RunsOf(ms, env)(st, i)
    {
      ExecutedStep(st, ms[i], i, env);
    }
    LoopExecuted(PassOf(ms, env), RunsOf(ms, env), |ms|, s, k);
    RunUpToIsLoop(s, ms, env, k);
  }

  /** The pass of the outer loop as a value: pass i handles the i-th migration. */
  function PassOf(ms: seq<Migration>, env: Env): (State, nat) --> StepOut
  {
    (st: State, i: nat) requires i < |ms| => Step(st, ms[i], i, env)
  }

  /** The `run` calls each pass of the outer loop adds, as a value. */
  function RunsOf(ms: seq<Migration>, env: Env): (State, nat) --> seq<Event>
  {
    (st: State, i: nat) requires i < |ms| => StepRuns(st, ms[i], i, env)
  }

  /** The outer loop over any pass: k passes, none after the first that fails. */
  function Loop(pass: (State, nat) --> StepOut, n: nat, s: State, k: nat): RunOut
    requires k <= n
    requires forall st: State, i: nat :: i < n ==> pass.requires(st, i)
  {
    if k == 0 then RunOut(s, Completed) else Proceed(Loop(pass, n, s, k - 1), pass, n, k - 1)
  }

  /** One pass of `Loop`, unless an earlier one threw. */
  function Proceed(r: RunOut, pass: (State, nat) --> StepOut, n: nat, i: nat): RunOut
    requires i < n
    requires forall st: State, i: nat :: i < n ==> pass.requires(st, i)
  {
    if r.result.Threw? then r
    else
      var o := pass(r.state, i);
      RunOut(o.state, if o.result.Failed? then Threw(o.result.error) else Completed)
  }

  /** The `run` calls of the first k passes of `Loop`, pass by pass, none after the first that fails. */
  function LoopRuns(pass: (State, nat) --> StepOut, runs: (State, nat) --> seq<Event>, n: nat, s: State, k: nat): seq<Event>
    requires k <= n
    requires forall st: State, i: nat :: i < n ==> pass.requires(st, i) && runs.requires(st, i)
  {
    if k == 0 then []
    else
      var r := Loop(pass, n, s, k - 1);
      if r.result.Threw? then LoopRuns(pass, runs, n, s, k - 1)
      else LoopRuns(pass, runs, n, s, k - 1) + runs(r.state, k - 1)
  }

  /** When every pass adds a known list of `run` calls, the loop adds those lists in pass order. */
  lemma LoopExecuted(pass: (State, nat) --> StepOut, runs: (State, nat) --> seq<Event>, n: nat, s: State, k: nat)
    requires k <= n
    requires forall st: State, i: nat :: i < n ==> pass.requires(st, i) && runs.requires(st, i)
    requires forall st: State, i: nat :: i < n ==> Executed(pass(st, i).state.log) == Executed(st.log) + runs(st, i)
    ensures Executed(Loop(pass, n, s, k).state.log) == Executed(s.log) + LoopRuns(pass, runs, n, s, k)
  {
    if k == 0 {
      assert Executed(s.log) + [] == Executed(s.log);
    } else {
      LoopExecuted(pass, runs, n, s, k - 1);
      var r := Loop(pass, n, s, k - 1);
      if r.result.Completed? {
        Regroup(Executed(s.log), LoopRuns(pass, runs, n, s, k - 1), runs(r.state, k - 1),
          Executed(r.state.log), Executed(Loop(pass, n, s, k).state.log));
      }
    }
  }

  /** The outer loop of `run` is `Loop` over `PassOf`. */
  lemma RunUpToIsLoop(s: State, ms: seq<Migration>, env: Env, k: nat)
    requires k <= |ms|
    ensures RunUpTo(s, ms, env, k) == Loop(PassOf(ms, env), |ms|, s, k)
  {
    if k > 0 {
      RunUpToIsLoop(s, ms, env, k - 1);
      AdvanceIsProceed(RunUpTo(s, ms, env, k - 1), Loop(PassOf(ms, env), |ms|, s, k - 1), ms, env, k - 1);
    }
  }

  /** One more pass of the outer loop is one more pass of `Loop`. */
  lemma AdvanceIsProceed(r: RunOut, r': RunOut, ms: seq<Migration>, env: Env, i: nat)
    requires i < |ms| && r == r'
    ensures Advance(r, ms[i], i, env) == Proceed(r', PassOf(ms, env), |ms|, i)
  {
  }

  /** Concatenation regrouped, for the step of `LoopExecuted`. */
  lemma Regroup(a: seq<Event>, b: seq<Event>, c: seq<Event>, x: seq<Event>, y: seq<Event>)
    requires x == a + b && y == x + c
    ensures y == a + (b + c)
  {
  }

  // ---------------------------------------------------------------------------
  // Markers across a run

  /** No two marker rows name the same class. */
  predicate UniqueMarkers(markers: seq<Marker>)
  {
    forall a, b :: 0 <= a < b < |markers| ==> markers[a].migration != markers[b].migration
  }

  /** Under unique markers the marker query counts at most one row. */
  lemma {:induction false} UniqueCount(markers: seq<Marker>, id: MigrationId)
    requires UniqueMarkers(markers)
    ensures Count(markers, id) <= 1
  {
    if markers != [] {
      var last := |markers| - 1;
      var prefix := markers[..last];
      assert UniqueMarkers(prefix);
      if markers[last].migration == id {
        assert forall k :: 0 <= k < |prefix| ==> prefix[k].migration != id;
      } else {
        UniqueCount(prefix, id);
      }
    }
  }

  /** A pass either leaves the marker table alone or is applied and appends the one marker its class did not yet have. */
  lemma StepMarkers(s: State, m: Migration, i: nat, env: Env)
    ensures var o := Step(s, m, i, env); var markers := o.state.tables.markers;
      || markers == s.tables.markers
      || (o.result == Applied && Count(s.tables.markers, m.id) == 0
          && markers == s.tables.markers + [Marker(m.id, env.clock(i))])
  {
    match Step(s, m, i, env).result
    case Skipped => SkipChangesNothing(s, m, i, env);
    case Applied => AppliedIff(s, m, i, env); SuccessEffects(s, m, i, env);
    case Failed(_) => FailureLeavesNoMarker(s, m, i, env);
  }

  /**
   * `run` never removes a marker row that was there when it started, and it
   * never adds a second marker for a class: unique markers stay unique.
   */
  lemma RunKeepsMarkers(s: State, ms: seq<Migration>, env: Env, k: nat)
    requires k <= |ms|
    ensures var markers := RunUpTo(s, ms, env, k).state.tables.markers;
      && |s.tables.markers| <= |markers|
      && markers[..|s.tables.markers|] == s.tables.markers
      && (UniqueMarkers(s.tables.markers) ==> UniqueMarkers(markers))
  {
    forall st: State, i: nat | i < |ms|
      ensures MarkersKept(st, PassOf(ms, env)(st, i).state)
    {
      StepMarkers(st, ms[i], i, env);
      var before := st.tables.markers;
      if Step(st, ms[i], i, env).state.tables.markers != before {
        assert (before + [Marker(ms[i].id, env.clock(i))])[..|before|] == before;
        if UniqueMarkers(before) {
          MarkerAppendUnique(before, Marker(ms[i].id, env.clock(i)));
        }
      }
    }
    LoopKeepsMarkers(PassOf(ms, env), |ms|, s, k);
    RunUpToIsLoop(s, ms, env, k);
  }

  /** The marker table of `after` starts with that of `before`, and is unique if that one was. */
  predicate MarkersKept(before: State, after: State)
  {
    && |before.tables.markers| <= |after.tables.markers|
    && after.tables.markers[..|before.tables.markers|] == before.tables.markers
    && (UniqueMarkers(before.tables.markers) ==> UniqueMarkers(after.tables.markers))
  }

  /** A loop whose every pass keeps the markers keeps them across its passes. */
  lemma LoopKeepsMarkers(pass: (State, nat) --> StepOut, n: nat, s: State, k: nat)
    requires k <= n
    requires forall st: State, i: nat :: i < n ==> pass.requires(st, i)
    requires forall st: State, i: nat :: i < n ==> MarkersKept(st, pass(st, i).state)
    ensures MarkersKept(s, Loop(pass, n, s, k).state)
  {
    if k == 0 {
      assert s.tables.markers[..|s.tables.markers|] == s.tables.markers;
    } else {
      LoopKeepsMarkers(pass, n, s, k - 1);
      var r := Loop(pass, n, s, k - 1);
      if r.result.Completed? {
        MarkersKeptTrans(s, r.state, pass(r.state, k - 1).state);
      }
    }
  }

  /** Keeping the markers is transitive. */
  lemma MarkersKeptTrans(a: State, b: State, c: State)
    requires MarkersKept(a, b) && MarkersKept(b, c)
    ensures MarkersKept(a, c)
  {
    assert c.tables.markers[..|a.tables.markers|] == c.tables.markers[..|b.tables.markers|][..|a.tables.markers|];
  }

  /** Appending a marker for a class the query does not find keeps the markers unique. */
  lemma MarkerAppendUnique(markers: seq<Marker>, row: Marker)
    requires UniqueMarkers(markers) && Count(markers, row.migration) == 0
    ensures UniqueMarkers(markers + [row])
  {
    forall a | 0 <= a < |markers|
      ensures markers[a].migration != row.migration
    {
    }
  }

  /**
   * A migration that is marked when `run` starts is skipped when the loop
   * reaches it, unless its marker query throws.
   */
  lemma MarkedAtStartSkipped(s: State, ms: seq<Migration>, env: Env, j: nat)
    requires j < |ms|
    requires Count(s.tables.markers, ms[j].id) > 0
    requires RunUpTo(s, ms, env, j).result == Completed
    requires env.fault(j, CountMarkers).None?
    ensures Step(RunUpTo(s, ms, env, j).state, ms[j], j, env).result == Skipped
  {
    var r := RunUpTo(s, ms, env, j);
    RunKeepsMarkers(s, ms, env, j);
    var w :| 0 <= w < |s.tables.markers| && s.tables.markers[w].migration == ms[j].id;
    assert r.state.tables.markers[w] == r.state.tables.markers[..|s.tables.markers|][w];
    SkippedIffMarked(r.state, ms[j], j, env);
  }
}
