/**
 * The inner `foreach` of the apply loop: a migration's commands run in map
 * order, each one's output lines are captured into `$outputs` (also when its
 * `run` throws), and the first throwable ends the phase.
 */
module CommandPhase {
  import opened Wrappers
  import opened Domain
  import opened OutputMap

  /**
   * The loop's variables after some commands: `$outputs`, `$currentCommand`,
   * the `run` calls made, and the throwable that ended the phase, if any.
   */
  datatype Phase = Phase(outputs: Outputs, current: Option<CommandName>, ran: seq<Event>, failure: Option<Throwable>)

  /** One pass of the inner loop body for command `c` of migration `id`. */
  function Attempt(p: Phase, id: MigrationId, c: Command, o: Outcome): Phase
  {
    match o
    case Ok(lines) =>
      Phase(Put(p.outputs, c.name, lines), Some(c.name), p.ran + [Ran(id, c.name, c.arguments)], None)
    case RunFails(partial, e) =>
      Phase(Put(p.outputs, c.name, partial), Some(c.name), p.ran + [Ran(id, c.name, c.arguments)], Some(e))
    case ResolveFails(e) =>
      Phase(p.outputs, Some(c.name), p.ran, Some(e))
  }

  /** The phase after the loop has been offered the first `n` commands of the i-th migration `m`. */
  function Commands(m: Migration, i: nat, exec: (nat, nat) -> Outcome, n: nat): Phase
    requires n <= |m.commands|
  {
    if n == 0 then Phase([], None, [], None)
    else
      var p := Commands(m, i, exec, n - 1);
      if p.failure.Some? then p else Attempt(p, m.id, m.commands[n - 1], exec(i, n - 1))
  }

  /** The number of leading commands among the first `n` that succeed: the index of the first that throws, or `n`. */
  function FirstHalt(exec: (nat, nat) -> Outcome, i: nat, n: nat): (h: nat)
    ensures h <= n
    ensures forall t :: 0 <= t < h ==> exec(i, t).Ok?
    ensures h < n ==> !exec(i, h).Ok?
  {
    if n == 0 then 0
    else
      var h := FirstHalt(exec, i, n - 1);
      if h < n - 1 then h else if exec(i, n - 1).Ok? then n else n - 1
  }

  /** The number of commands among the first `n` whose `run` was called. */
  function Captured(exec: (nat, nat) -> Outcome, i: nat, n: nat): (c: nat)
    ensures c <= n
  {
    var h := FirstHalt(exec, i, n);
    if h < n && exec(i, h).RunFails? then h + 1 else h
  }

  /** The lines a command wrote before returning or throwing; none if it never ran. */
  function Written(o: Outcome): Option<seq<string>>
  {
    match o
    case Ok(lines) => Some(lines)
    case RunFails(partial, _) => Some(partial)
    case ResolveFails(_) => None
  }

  function Names(cs: seq<Command>): seq<CommandName>
  {
    seq(|cs|, t requires 0 <= t < |cs| => cs[t].name)
  }

  /** The `run` calls for commands `cs` of migration `id`, in order. */
  function RanEvents(id: MigrationId, cs: seq<Command>): seq<Event>
  {
    seq(|cs|, t requires 0 <= t < |cs| => Ran(id, cs[t].name, cs[t].arguments))
  }

  /** Keys of a PHP array are unique, so a command map never names a command twice. */
  predicate DistinctNames(cs: seq<Command>)
  {
    forall a, b :: 0 <= a < b < |cs| ==> cs[a].name != cs[b].name
  }

  /** Once a command has thrown, the later commands change nothing. */
  lemma {:induction false} CommandsStable(m: Migration, i: nat, exec: (nat, nat) -> Outcome, k: nat, n: nat)
    requires k <= n <= |m.commands|
    requires Commands(m, i, exec, k).failure.Some?
    ensures Commands(m, i, exec, n) == Commands(m, i, exec, k)
  {
    if n > k {
      CommandsStable(m, i, exec, k, n - 1);
    }
  }

  /**
   * The phase fails exactly when some command throws; the throwable is the
   * first one's, and `$currentCommand` names the command that threw, or the
   * last command when none did (null for an empty map).
   */
  lemma {:induction false} CommandsHalt(m: Migration, i: nat, exec: (nat, nat) -> Outcome, n: nat)
    requires n <= |m.commands|
    ensures var p := Commands(m, i, exec, n); var h := FirstHalt(exec, i, n);
      && (p.failure.None? <==> h == n)
      && (h < n ==> p.failure == Some(exec(i, h).error) && p.current == Some(m.commands[h].name))
      && (h == n ==> p.current == if n == 0 then None else Some(m.commands[n - 1].name))
  {
    if n > 0 {
      CommandsHalt(m, i, exec, n - 1);
    }
  }

  /** How one more command changes `$outputs`, the `run` calls and the number of commands whose `run` was called. */
  lemma CommandsOutputStep(m: Migration, i: nat, exec: (nat, nat) -> Outcome, n: nat)
    requires 0 < n <= |m.commands|
    ensures Captured(exec, i, n - 1) <= n - 1
    ensures var p := Commands(m, i, exec, n - 1); var q := Commands(m, i, exec, n);
      if p.failure.None? && Written(exec(i, n - 1)).Some? then
        && Captured(exec, i, n - 1) == n - 1 && Captured(exec, i, n) == n
        && q.outputs == Put(p.outputs, m.commands[n - 1].name, Written(exec(i, n - 1)).value)
        && q.ran == p.ran + [Ran(m.id, m.commands[n - 1].name, m.commands[n - 1].arguments)]
      else
        Captured(exec, i, n) == Captured(exec, i, n - 1) && q.outputs == p.outputs && q.ran == p.ran
  {
    CommandsHalt(m, i, exec, n - 1);
  }

  /** Commands run in map order, each at most once, and none after the one that threw. */
  lemma {:induction false} CommandsRanInOrder(m: Migration, i: nat, exec: (nat, nat) -> Outcome, n: nat)
    requires n <= |m.commands|
    ensures Captured(exec, i, n) <= n
    ensures Commands(m, i, exec, n).ran == RanEvents(m.id, m.commands[..Captured(exec, i, n)])
  {
    if n > 0 {
      CommandsRanInOrder(m, i, exec, n - 1);
      CommandsOutputStep(m, i, exec, n);
      var p := Commands(m, i, exec, n - 1);
      if p.failure.None? && Written(exec(i, n - 1)).Some? {
        assert m.commands[..n] == m.commands[..n - 1] + [m.commands[n - 1]];
        assert RanEvents(m.id, m.commands[..n]) == RanEvents(m.id, m.commands[..n - 1]) + [Ran(m.id, m.commands[n - 1].name, m.commands[n - 1].arguments)];
      }
    }
  }

  /**
   * `out` holds exactly the commands `cs[..c]`, in order, each mapped to the
   * lines it wrote, and no later command.
   */
  predicate Covers(out: Outputs, cs: seq<Command>, c: nat, exec: (nat, nat) -> Outcome, i: nat)
    requires c <= |cs|
  {
    && Keys(out) == Names(cs[..c])
    && (forall t :: 0 <= t < c ==> Lookup(out, cs[t].name) == Written(exec(i, t)))
    && (forall t :: c <= t < |cs| ==> Lookup(out, cs[t].name) == None)
  }

  /** Capturing command t's lines extends an array covering `cs[..t]` to one covering `cs[..t + 1]`. */
  lemma CaptureNext(cs: seq<Command>, t: nat, out: Outputs, exec: (nat, nat) -> Outcome, i: nat)
    requires t < |cs| && DistinctNames(cs)
    requires Written(exec(i, t)).Some?
    requires Covers(out, cs, t, exec, i)
    ensures Covers(Put(out, cs[t].name, Written(exec(i, t)).value), cs, t + 1, exec, i)
  {
    PutAssigns(out, cs[t].name, Written(exec(i, t)).value);
    assert cs[t].name !in Names(cs[..t]);
    assert Names(cs[..t + 1]) == Names(cs[..t]) + [cs[t].name];
  }

  /** An array covering `cs[..c]` still covers it when unchanged, and covers `cs[..c + 1]` once command c's lines are put. */
  lemma CoverStep(cs: seq<Command>, out: Outputs, c: nat, out': Outputs, c': nat, exec: (nat, nat) -> Outcome, i: nat)
    requires c <= |cs| && DistinctNames(cs)
    requires Covers(out, cs, c, exec, i)
    requires || (c' == c && out' == out)
             || (c < |cs| && c' == c + 1 && Written(exec(i, c)).Some? && out' == Put(out, cs[c].name, Written(exec(i, c)).value))
    ensures c' <= |cs| && Covers(out', cs, c', exec, i)
  {
    if c' != c {
      CaptureNext(cs, c, out, exec, i);
    }
  }

  /**
   * `$outputs` holds one entry per command whose `run` was called, in map
   * order, each with the lines that command wrote (the partial lines of the
   * command that threw included), and no entry for any other command.
   */
  lemma CommandsOutputs(m: Migration, i: nat, exec: (nat, nat) -> Outcome, n: nat)
    requires n <= |m.commands|
    requires DistinctNames(m.commands)
    ensures Captured(exec, i, n) <= n
    ensures var p := Commands(m, i, exec, n); var c := Captured(exec, i, n);
      && Keys(p.outputs) == Names(m.commands[..c])
      && (forall t :: 0 <= t < c ==> Lookup(p.outputs, m.commands[t].name) == Written(exec(i, t)))
      && (forall t :: c <= t < |m.commands| ==> Lookup(p.outputs, m.commands[t].name) == None)
  {
    CommandsCover(m, i, exec, n);
  }

  lemma {:induction false} CommandsCover(m: Migration, i: nat, exec: (nat, nat) -> Outcome, n: nat)
    requires n <= |m.commands|
    requires DistinctNames(m.commands)
    ensures Captured(exec, i, n) <= n
    ensures Covers(Commands(m, i, exec, n).outputs, m.commands, Captured(exec, i, n), exec, i)
  {
    if n == 0 {
      assert Keys([]) == Names(m.commands[..0]);
    } else {
      CommandsCover(m, i, exec, n - 1);
      var out, c := Commands(m, i, exec, n - 1).outputs, Captured(exec, i, n - 1);
      var out', c' := Commands(m, i, exec, n).outputs, Captured(exec, i, n);
      assert || (c' == c && out' == out)
             || (c < |m.commands| && c' == c + 1 && Written(exec(i, c)).Some?
                 && out' == Put(out, m.commands[c].name, Written(exec(i, c)).value)) by {
        CommandsOutputStep(m, i, exec, n);
      }
      CoverStep(m.commands, out, c, out', c', exec, i);
    }
  }

  /**
   * A command that cannot be resolved or prepared gets no `$outputs` entry,
   * yet `$currentCommand` already names it and the phase fails with its throwable.
   */
  lemma ResolveFailureLeavesNoEntry(m: Migration, i: nat, exec: (nat, nat) -> Outcome)
    requires DistinctNames(m.commands)
    requires FirstHalt(exec, i, |m.commands|) < |m.commands|
    requires exec(i, FirstHalt(exec, i, |m.commands|)).ResolveFails?
    ensures var p := Commands(m, i, exec, |m.commands|); var h := FirstHalt(exec, i, |m.commands|);
      && p.current == Some(m.commands[h].name)
      && Lookup(p.outputs, m.commands[h].name) == None
      && p.failure == Some(exec(i, h).error)
  {
    CommandsHalt(m, i, exec, |m.commands|);
    CommandsOutputs(m, i, exec, |m.commands|);
  }

  /**
   * When a command's `run` throws, its partial lines are captured under its
   * name before the throwable propagates, and later commands have no entry.
   */
  lemma RunFailureCapturesPartial(m: Migration, i: nat, exec: (nat, nat) -> Outcome)
    requires DistinctNames(m.commands)
    requires FirstHalt(exec, i, |m.commands|) < |m.commands|
    requires exec(i, FirstHalt(exec, i, |m.commands|)).RunFails?
    ensures var p := Commands(m, i, exec, |m.commands|); var h := FirstHalt(exec, i, |m.commands|);
      && p.current == Some(m.commands[h].name)
      && Lookup(p.outputs, m.commands[h].name) == Some(exec(i, h).partial)
      && (forall t :: h < t < |m.commands| ==> Lookup(p.outputs, m.commands[t].name) == None)
      && p.failure == Some(exec(i, h).error)
  {
    CommandsHalt(m, i, exec, |m.commands|);
    CommandsOutputs(m, i, exec, |m.commands|);
  }
}
