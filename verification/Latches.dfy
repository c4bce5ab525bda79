/** Something that lasts from one kind of step until another. */
module Latches {
  /** Something happened in step `j`, and its opposite in no step from there to `m`. */
  ghost predicate Latched(on: seq<bool>, off: seq<bool>, j: nat, m: nat)
    requires j < m <= |on| == |off|
  {
    on[j] && forall k :: j < k < m ==> !off[k]
  }

  lemma LatchStep(on: seq<bool>, off: seq<bool>, m: nat, n: nat)
    requires n == m + 1 <= |on| == |off|
    ensures (exists j: nat :: j < n && Latched(on, off, j, n)) <==>
            on[m] || (!off[m] && exists j: nat :: j < m && Latched(on, off, j, m))
  {
    if on[m] {
      assert Latched(on, off, m, n);
    } else if j: nat :| j < n && Latched(on, off, j, n) {
      assert Latched(on, off, j, m);
    } else if !off[m] && exists j: nat :: j < m && Latched(on, off, j, m) {
      var j: nat :| j < m && Latched(on, off, j, m);
      assert Latched(on, off, j, n);
    }
  }
}
