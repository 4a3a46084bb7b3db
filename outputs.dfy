/** The `$outputs` array and PHP's keyed assignment `$outputs[$name] = $lines`. */
module OutputMap {
  import opened Wrappers
  import opened Domain

  /** The keys of the array, in insertion order. */
  function Keys(o: Outputs): seq<CommandName>
  {
    if o == [] then [] else [o[0].command] + Keys(o[1..])
  }

  /** `$outputs[$k] ?? null`. */
  function Lookup(o: Outputs, k: CommandName): (r: Option<seq<string>>)
    ensures r.Some? <==> k in Keys(o)
  {
    if o == [] then None
    else if o[0].command == k then Some(o[0].lines)
    else Lookup(o[1..], k)
  }

  /** `$outputs[$k] = $lines`. */
  function Put(o: Outputs, k: CommandName, lines: seq<string>): Outputs
  {
    if o == [] then [OutputEntry(k, lines)]
    else if o[0].command == k then [OutputEntry(k, lines)] + o[1..]
    else [o[0]] + Put(o[1..], k, lines)
  }

  /**
   * PHP's keyed assignment: key `k` afterwards maps to `lines`, an existing
   * key keeps its position, a new key goes at the end, and every other key
   * keeps its value.
   */
  lemma {:induction false} PutAssigns(o: Outputs, k: CommandName, lines: seq<string>)
    ensures Lookup(Put(o, k, lines), k) == Some(lines)
    ensures forall k' :: k' != k ==> Lookup(Put(o, k, lines), k') == Lookup(o, k')
    ensures Keys(Put(o, k, lines)) == if k in Keys(o) then Keys(o) else Keys(o) + [k]
  {
    if o != [] && o[0].command != k {
      PutAssigns(o[1..], k, lines);
      var r := Put(o, k, lines);
      assert r[1..] == Put(o[1..], k, lines);
      assert Keys(r) == [o[0].command] + Keys(Put(o[1..], k, lines));
      if k !in Keys(o[1..]) {
        assert Keys(r) == [o[0].command] + (Keys(o[1..]) + [k]);
      }
    } else if o != [] {
      var r := Put(o, k, lines);
      assert r[1..] == o[1..];
    }
  }
}
