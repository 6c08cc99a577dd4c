/** Small shared vocabulary: nullable columns and fresh identifiers. */
module Base {
  datatype Option<+T> = None | Some(value: T) {
    function GetOr(default: T): T {
      if Some? then value else default
    }
  }

  /** A freshly drawn uuid always exists: only finitely many identifiers are in use. */
  lemma {:induction false} FreshIdExists(used: set<nat>)
    ensures exists id: nat :: id !in used
  {
    var bound := AllBelow(used);
    assert bound !in used;
  }

  lemma {:induction false} AllBelow(used: set<nat>) returns (bound: nat)
    ensures forall id | id in used :: id < bound
    decreases |used|
  {
    if used == {} {
      bound := 0;
    } else {
      var id :| id in used;
      var rest := AllBelow(used - {id});
      assert used == (used - {id}) + {id};
      bound := if rest > id then rest else id + 1;
    }
  }
}
