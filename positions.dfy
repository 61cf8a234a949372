/**
 * Lists of positions into a sequence, as the filters of this model select
 * them: shifting a tail's positions to the whole list, and increasing order.
 */
module Positions {
  /** Each index shifted by one: the kept positions of a tail, seen from the whole list. */
  function Shift(idx: seq<nat>): (r: seq<nat>)
    ensures |r| == |idx|
    ensures forall k :: 0 <= k < |r| ==> r[k] == idx[k] + 1
  {
    seq(|idx|, k requires 0 <= k < |idx| => idx[k] + 1)
  }

  /** `i` is a shifted index exactly when `i - 1` was an index. */
  lemma ShiftMembership(idx: seq<nat>, i: int)
    ensures i in Shift(idx) <==> (1 <= i && i - 1 in idx)
  {
    var sh := Shift(idx);
    if i in sh {
      var k :| 0 <= k < |sh| && sh[k] == i;
      assert idx[k] == i - 1;
    }
    if 1 <= i && i - 1 in idx {
      var k :| 0 <= k < |idx| && idx[k] == i - 1;
      assert sh[k] == i;
    }
  }

  /** The positions `idx` are strictly increasing. */
  predicate Increasing(idx: seq<nat>) {
    forall k, l :: 0 <= k < l < |idx| ==> idx[k] < idx[l]
  }
}
