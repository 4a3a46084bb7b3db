/**
 * The connection as the apply loop sees it: the two audit tables, the
 * stack of open transaction levels, and the ordered log of effects.
 */
module Store {
  import opened Wrappers
  import opened Domain

  /** The contents of `deploy_migrations` and `deploy_migrations_info`. */
  datatype Tables = Tables(markers: seq<Marker>, infos: seq<InfoRow>)

  /**
   * `tables` is what the connection currently sees; `snapshots` holds, for
   * each open transaction level (innermost last), the tables as they were
   * when that level began; `log` is every effect so far, in order.
   */
  datatype State = State(tables: Tables, snapshots: seq<Tables>, log: seq<Event>)

  /** `where('migration', '=', $id)->count()` on `deploy_migrations`. */
  function Count(markers: seq<Marker>, id: MigrationId): (n: nat)
    ensures n <= |markers|
    ensures n > 0 <==> exists k :: 0 <= k < |markers| && markers[k].migration == id
  {
    if markers == [] then 0
    else
      var last := |markers| - 1;
      Count(markers[..last], id) + (if markers[last].migration == id then 1 else 0)
  }

  /** `beginTransaction()`: a new level that remembers the current tables. */
  function Begun(s: State): State
  {
    State(s.tables, s.snapshots + [s.tables], s.log + [Begin])
  }

  /** `commit()`: the innermost level closes and its changes stay. */
  function Committed(s: State): State
    requires |s.snapshots| > 0
  {
    State(s.tables, s.snapshots[..|s.snapshots| - 1], s.log + [Commit])
  }

  /** `rollBack()`: the innermost level closes and the tables go back to how they were when it began. */
  function RolledBack(s: State): State
    requires |s.snapshots| > 0
  {
    State(s.snapshots[|s.snapshots| - 1], s.snapshots[..|s.snapshots| - 1], s.log + [RollBack])
  }

  /** A successful insert into `deploy_migrations`. */
  function WithMarker(s: State, row: Marker): State
  {
    State(Tables(s.tables.markers + [row], s.tables.infos), s.snapshots, s.log + [Inserted(DeployMigrations, row.migration)])
  }

  /** A successful insert into `deploy_migrations_info`. */
  function WithInfo(s: State, row: InfoRow): State
  {
    State(Tables(s.tables.markers, s.tables.infos + [row]), s.snapshots, s.log + [Inserted(DeployMigrationsInfo, row.migration)])
  }

  /** Effects that touch no table: command runs and writes to the deploy command's output. */
  function Logged(s: State, events: seq<Event>): State
  {
    s.(log := s.log + events)
  }
}
