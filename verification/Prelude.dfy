/** Small things several modules share. */
module Prelude {

  datatype Option<+T> = None | Some(value: T)

  type byte = x: int | 0 <= x < 256
  type Bytes = seq<byte>

  /** No element occurs twice. */
  ghost predicate Distinct(s: seq<nat>) {
    forall i, j :: 0 <= i < j < |s| ==> s[i] != s[j]
  }

  /** A number outside a finite set. */
  lemma Unused(used: set<nat>) returns (a: nat)
    ensures a !in used
  {
    if used == {} { return 0; }
    var top := 0;
    var rest := used;
    while rest != {}
      invariant rest <= used
      invariant forall b :: b in used && b !in rest ==> b < top
      decreases rest
    {
      var b: nat :| b in rest;
      if b >= top { top := b + 1; }
      rest := rest - {b};
    }
    return top;
  }
}
