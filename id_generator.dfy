/** IncrementalIdGenerator: ids handed out by an `Interlocked.Increment` of a 32-bit counter that starts at 0. */
module IdGenerators {

  const MinInt32 := -0x8000_0000
  const MaxInt32 := 0x7FFF_FFFF

  /** A C# `int`. */
  type Int32 = x: int | MinInt32 <= x <= MaxInt32

  /** One `Interlocked.Increment`: the counter plus one, wrapping from `int.MaxValue` to `int.MinValue`. */
  function NextId(c: Int32): (r: Int32)
    ensures c < MaxInt32 ==> r == c + 1
    ensures c == MaxInt32 ==> r == MinInt32
  {
    if c == MaxInt32 then MinInt32 else c + 1
  }

  /** The counter after `n` increments from `c`; the `k`-th id handed out from `c` is `Advance(c, k)`. */
  function Advance(c: Int32, n: nat): (r: Int32)
    ensures c + n <= MaxInt32 ==> r == c + n
  {
    if n == 0 then c else NextId(Advance(c, n - 1))
  }

  /** While the counter stays below `int.MaxValue`, later calls return strictly larger ids, so no id repeats. */
  lemma IdsStrictlyIncrease(c: Int32, i: nat, j: nat)
    requires i < j && c + j <= MaxInt32
    ensures Advance(c, i) < Advance(c, j)
  {
  }

  class IncrementalIdGenerator {
    var currentId: Int32

    constructor ()
      ensures currentId == 0
    {
      currentId := 0;
    }

    /** Increments the counter and returns its new value; nothing else changes. */
    method GetNext() returns (id: Int32)
      modifies this`currentId
      ensures id == NextId(old(currentId)) && currentId == id
    {
      currentId := NextId(currentId);
      id := currentId;
    }
  }

  /** A fresh generator hands out 1, 2, 3, ... : the first id is 1 and the `k`-th is `k`. */
  lemma FreshGeneratorCountsFromOne(k: nat)
    requires 1 <= k <= MaxInt32
    ensures Advance(0, 1) == 1
    ensures Advance(0, k) == k
  {
  }
}
