/** A fresh-name supply standing in for the namer package, whose internals
    are not part of this model: a requested name is used as it is when it is
    free, and is otherwise lengthened until it is free. */
module Namer {

  /** The length of the longest name taken so far. */
  function MaxLen(taken: seq<string>): (n: nat)
    ensures forall i :: 0 <= i < |taken| ==> |taken[i]| <= n
  {
    if taken == [] then 0
    else
      var rest := MaxLen(taken[1..]);
      if |taken[0]| <= rest then rest else |taken[0]|
  }

  function Pad(k: nat): (p: string)
    ensures |p| == k
  {
    if k == 0 then "" else Pad(k - 1) + "_"
  }

  /** The first of base + Pad(k), base + Pad(k + 1), ... that is free. */
  function FreshFrom(base: string, taken: seq<string>, k: nat): (r: string)
    ensures r !in taken
    ensures |base| <= |r| && r[..|base|] == base
    decreases MaxLen(taken) + 1 - k
  {
    var candidate := base + Pad(k);
    assert candidate[..|base|] == base;
    if candidate !in taken then candidate
    else
      assert |candidate| <= MaxLen(taken);
      FreshFrom(base, taken, k + 1)
  }

  /** A name derived from base that is not taken; base itself when it is free. */
  function FreshName(base: string, taken: seq<string>): (r: string)
    ensures r !in taken
    ensures base !in taken ==> r == base
    ensures |base| <= |r| && r[..|base|] == base
  {
    assert base + Pad(0) == base;
    FreshFrom(base, taken, 0)
  }
}
