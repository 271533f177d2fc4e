/**
  The arithmetic of one generated file: how many outages and delivery nodes it
  claims, and how many customers each node affects.
 */
module Counts {
  import opened JavaLang

  /** The campaign's intensity at a tick, as the ramp curve returns it. */
  type Intensity = r: real | 0.0 <= r <= 1.0

  /** `Math.max(1, (int) Math.round(maxOutagesTotal * (1.0 / N)))`: the outages spread evenly over `n` files, at least one. */
  function OutagesThisFile(maxOutagesTotal: Int32, n: int): (c: int)
    requires n >= 1
    ensures IsInt(c) && c >= 1
    ensures var q := maxOutagesTotal as real / n as real;
      q >= 0.5 ==> c as real - 0.5 <= q < c as real + 0.5
    ensures maxOutagesTotal as real / n as real < 0.5 ==> c == 1
  {
    var q := maxOutagesTotal as real / n as real;
    QuotientInIntRange(maxOutagesTotal, n);
    Max(1, LongToInt(Round(q)))
  }

  /** A Java `int` divided by a positive count stays in the `int` range. */
  lemma QuotientInIntRange(m: Int32, n: int)
    requires n >= 1
    ensures INT_MIN as real <= m as real / n as real <= INT_MAX as real
  {
    var q := m as real / n as real;
    assert q * n as real == m as real;
    if m >= 0 {
      assert 0.0 <= q;
      assert q <= q * n as real;
    } else {
      assert q < 0.0;
      assert q * n as real <= q;
    }
  }

  /** `Math.max(1, avgNodesPerFile)`: a configured average below one counts as one. */
  function AvgNodes(avgNodesPerFile: Int32): (a: int)
    ensures 1 <= a <= INT_MAX
    ensures avgNodesPerFile >= 1 ==> a == avgNodesPerFile
    ensures avgNodesPerFile < 1 ==> a == 1
  {
    Max(1, avgNodesPerFile)
  }

  /**
    `Math.max(1, (int) Math.round(avgNodes * (0.5 + r)))`: between half and one and a half
    times the average, following the ramp. `Math.round` of a `double` is a `long`, and
    the cast to `int` keeps its low 32 bits.
   */
  function NodesThisFile(avgNodes: int, r: Intensity): (c: int)
    requires 1 <= avgNodes <= INT_MAX
    ensures IsInt(c) && c >= 1
    ensures var x := avgNodes as real * (0.5 + r);
      x < INT_MAX as real + 0.5 ==> c as real - 0.5 <= x < c as real + 0.5
  {
    var x := avgNodes as real * (0.5 + r);
    ProductAtLeastHalf(avgNodes as real, 0.5 + r);
    Max(1, LongToInt(Round(x)))
  }

  /** A factor of at least one times a factor of at least one half is at least one half. */
  lemma ProductAtLeastHalf(a: real, b: real)
    requires a >= 1.0 && b >= 0.5
    ensures a * b >= 0.5
  {
    assert a * b == b + (a - 1.0) * b;
    assert (a - 1.0) * b >= 0.0;
  }

  /** `Math.max(1, (int) Math.round(100 * (0.3 + r)))`: between 30 and 130 customers per node. */
  function CustomersAffected(r: Intensity): (c: int)
    ensures 30 <= c <= 130
    ensures c as real - 0.5 <= 100.0 * (0.3 + r) < c as real + 0.5
  {
    Max(1, LongToInt(Round(100.0 * (0.3 + r))))
  }

  /** With the default 500 outages over the default 24 ticks, every file claims 21 outages. */
  lemma DefaultOutageCount()
    ensures OutagesThisFile(500, 24) == 21
  {
    var c := OutagesThisFile(500, 24);
    assert c as real - 0.5 <= 500.0 / 24.0 < c as real + 0.5;
  }

  /** With the default average of 120 nodes, a file has 60 nodes at intensity 0 and 180 at intensity 1. */
  lemma DefaultNodeCounts()
    ensures NodesThisFile(AvgNodes(120), 0.0) == 60
    ensures NodesThisFile(AvgNodes(120), 1.0) == 180
  {
    var lo := NodesThisFile(120, 0.0);
    assert lo as real - 0.5 <= 60.0 < lo as real + 0.5;
    var hi := NodesThisFile(120, 1.0);
    assert hi as real - 0.5 <= 180.0 < hi as real + 0.5;
  }

  /**
    The narrowing cast wraps: at the largest average and full intensity the rounded count
    3221225471 does not fit an `int`, wraps to -1073741825, and the file gets one node.
   */
  lemma NodesThisFileWraps()
    ensures Round(INT_MAX as real * 1.5) == 3_221_225_471
    ensures LongToInt(3_221_225_471) == -1_073_741_825
    ensures NodesThisFile(INT_MAX, 1.0) == 1
  {
  }
}
