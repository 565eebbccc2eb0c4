/**
 * Connections between the selected regions' centres, drawn after every
 * region's shape and label: nothing, a chain through the centres in rank
 * order, or a hub at the centres' mean with a spoke to each centre.
 * With fewer than two centres nothing is drawn, whatever the mode.
 */
module Connections {
  import opened Colour
  import opened Geometry

  /** Connection modes; `NoConnection` stands for any unrecognised mode string. */
  datatype ConnectionKind = NoConnection | Sequential | Hub

  /** The hub marker: a filled circle of radius 6 (OpenCV's thickness -1 fills). */
  const HubRadius := 6
  const Filled := -1

  /** One line from each centre to the next, in rank order. */
  function Chain(cs: seq<Point>, colour: Bgr, thick: int): seq<DrawOp> {
    if |cs| < 2 then []
    else Chain(cs[..|cs| - 1], colour, thick) + [Line(cs[|cs| - 2], cs[|cs| - 1], colour, thick)]
  }

  /** One line from the hub to each centre, in rank order. */
  function Spokes(hub: Point, cs: seq<Point>, colour: Bgr, thick: int): seq<DrawOp> {
    if cs == [] then []
    else Spokes(hub, cs[..|cs| - 1], colour, thick) + [Line(hub, cs[|cs| - 1], colour, thick)]
  }

  function Sum(s: seq<int>): int {
    if s == [] then 0 else Sum(s[..|s| - 1]) + s[|s| - 1]
  }

  function Xs(cs: seq<Point>): (xs: seq<int>)
    ensures |xs| == |cs| && forall i :: 0 <= i < |cs| ==> xs[i] == cs[i].x
  {
    if cs == [] then [] else Xs(cs[..|cs| - 1]) + [cs[|cs| - 1].x]
  }

  function Ys(cs: seq<Point>): (ys: seq<int>)
    ensures |ys| == |cs| && forall i :: 0 <= i < |cs| ==> ys[i] == cs[i].y
  {
    if cs == [] then [] else Ys(cs[..|cs| - 1]) + [cs[|cs| - 1].y]
  }

  /** `(sum x // n, sum y // n)`: the mean of the centres, rounded down. */
  function HubPoint(cs: seq<Point>): Point
    requires |cs| > 0
  {
    Point(Sum(Xs(cs)) / |cs|, Sum(Ys(cs)) / |cs|)
  }

  /** The connection ops for the centres `cs` of the selected regions, in rank order. */
  function ConnectionOps(kind: ConnectionKind, cs: seq<Point>, colour: Bgr, thick: int): (ops: seq<DrawOp>)
    ensures |cs| < 2 || kind == NoConnection ==> ops == []
  {
    if |cs| < 2 then []
    else match kind
      case NoConnection => []
      case Sequential => Chain(cs, colour, thick)
      case Hub =>
        var hub := HubPoint(cs);
        [Circle(hub, HubRadius, colour, Filled)] + Spokes(hub, cs, colour, thick)
  }

  function ConnectionOpCount(kind: ConnectionKind, n: nat): nat {
    if n < 2 then 0
    else match kind
      case NoConnection => 0
      case Sequential => n - 1
      case Hub => n + 1
  }

  lemma ConnectionOpsLength(kind: ConnectionKind, cs: seq<Point>, colour: Bgr, thick: int)
    ensures |ConnectionOps(kind, cs, colour, thick)| == ConnectionOpCount(kind, |cs|)
  {
    ConnectionOpsLayout(kind, cs, colour, thick);
  }

  lemma {:induction false} ChainJoinsNeighbours(cs: seq<Point>, colour: Bgr, thick: int)
    requires |cs| >= 1
    ensures |Chain(cs, colour, thick)| == |cs| - 1
    ensures forall i :: 0 <= i < |cs| - 1 ==> Chain(cs, colour, thick)[i] == Line(cs[i], cs[i + 1], colour, thick)
  {
    if |cs| >= 2 {
      var init := cs[..|cs| - 1];
      ChainJoinsNeighbours(init, colour, thick);
      assert forall i :: 0 <= i < |init| ==> init[i] == cs[i];
    }
  }

  lemma {:induction false} SpokesReachEveryCentre(hub: Point, cs: seq<Point>, colour: Bgr, thick: int)
    ensures |Spokes(hub, cs, colour, thick)| == |cs|
    ensures forall i :: 0 <= i < |cs| ==> Spokes(hub, cs, colour, thick)[i] == Line(hub, cs[i], colour, thick)
  {
    if cs != [] {
      var init := cs[..|cs| - 1];
      SpokesReachEveryCentre(hub, init, colour, thick);
      assert forall i :: 0 <= i < |init| ==> init[i] == cs[i];
    }
  }

  /** Sequential, two or more centres: n - 1 lines, the i-th from centre i to centre i + 1. */
  lemma SequentialLayout(cs: seq<Point>, colour: Bgr, thick: int)
    requires |cs| >= 2
    ensures var ops := ConnectionOps(Sequential, cs, colour, thick);
      && |ops| == |cs| - 1
      && forall i :: 0 <= i < |cs| - 1 ==> ops[i] == Line(cs[i], cs[i + 1], colour, thick)
  {
    assert ConnectionOps(Sequential, cs, colour, thick) == Chain(cs, colour, thick);
    ChainJoinsNeighbours(cs, colour, thick);
  }

  /** Hub, two or more centres: the filled marker at the hub point, then a spoke to each centre. */
  lemma HubLayout(cs: seq<Point>, colour: Bgr, thick: int)
    requires |cs| >= 2
    ensures var ops := ConnectionOps(Hub, cs, colour, thick);
      && |ops| == |cs| + 1
      && ops[0] == Circle(HubPoint(cs), HubRadius, colour, Filled)
      && forall i :: 0 <= i < |cs| ==> ops[i + 1] == Line(HubPoint(cs), cs[i], colour, thick)
  {
    var hub := HubPoint(cs);
    var spokes := Spokes(hub, cs, colour, thick);
    var ops := ConnectionOps(Hub, cs, colour, thick);
    assert ops == [Circle(hub, HubRadius, colour, Filled)] + spokes;
    SpokesReachEveryCentre(hub, cs, colour, thick);
    forall i | 0 <= i < |cs|
      ensures ops[i + 1] == Line(hub, cs[i], colour, thick)
    {
      assert ops[i + 1] == spokes[i];
    }
  }

  /**
   * With two or more centres, Sequential draws exactly n - 1 lines joining
   * consecutive centres, and Hub draws one filled radius-6 circle at the
   * floor-mean point followed by one line from it to each centre.
   */
  lemma ConnectionOpsLayout(kind: ConnectionKind, cs: seq<Point>, colour: Bgr, thick: int)
    ensures var ops := ConnectionOps(kind, cs, colour, thick);
      && |ops| == ConnectionOpCount(kind, |cs|)
      && (|cs| >= 2 && kind == Sequential ==>
            forall i :: 0 <= i < |cs| - 1 ==> ops[i] == Line(cs[i], cs[i + 1], colour, thick))
      && (|cs| >= 2 && kind == Hub ==>
            && ops[0] == Circle(HubPoint(cs), HubRadius, colour, Filled)
            && forall i :: 0 <= i < |cs| ==> ops[i + 1] == Line(HubPoint(cs), cs[i], colour, thick))
  {
    if |cs| >= 2 {
      match kind
      case NoConnection =>
      case Sequential => SequentialLayout(cs, colour, thick);
      case Hub => HubLayout(cs, colour, thick);
    }
  }

  // ----- Where the hub lies -----

  lemma {:induction false} SumAtLeast(s: seq<int>, m: int)
    requires forall i :: 0 <= i < |s| ==> m <= s[i]
    ensures |s| * m <= Sum(s)
  {
    if s != [] {
      SumAtLeast(s[..|s| - 1], m);
      assert |s| * m == (|s| - 1) * m + m;
    }
  }

  lemma {:induction false} SumAtMost(s: seq<int>, m: int)
    requires forall i :: 0 <= i < |s| ==> s[i] <= m
    ensures Sum(s) <= |s| * m
  {
    if s != [] {
      SumAtMost(s[..|s| - 1], m);
      assert |s| * m == (|s| - 1) * m + m;
    }
  }

  lemma FloorDivBounds(total: int, n: int, lo: int, hi: int)
    requires n > 0 && n * lo <= total <= n * hi
    ensures lo <= total / n <= hi
  {
    var q, r := total / n, total % n;
    assert total == n * q + r && 0 <= r < n;
    assert q <= lo - 1 ==> n * q <= n * (lo - 1);
    assert q >= hi + 1 ==> n * q >= n * (hi + 1);
  }

  /**
   * The floor mean of a non-empty list lies between its least and its
   * greatest element: some element is at or below it and some at or above it.
   */
  lemma FloorMeanBetween(s: seq<int>) returns (lo: nat, hi: nat)
    requires |s| > 0
    ensures lo < |s| && hi < |s|
    ensures s[lo] <= Sum(s) / |s| <= s[hi]
    ensures forall i :: 0 <= i < |s| ==> s[lo] <= s[i] <= s[hi]
  {
    lo, hi := 0, 0;
    for k := 1 to |s|
      invariant lo < k && hi < k
      invariant forall i :: 0 <= i < k ==> s[lo] <= s[i] <= s[hi]
    {
      if s[k] < s[lo] { lo := k; }
      if s[k] > s[hi] { hi := k; }
    }
    SumAtLeast(s, s[lo]);
    SumAtMost(s, s[hi]);
    FloorDivBounds(Sum(s), |s|, s[lo], s[hi]);
  }

  /** The hub lies within the bounding box of the centres it joins. */
  lemma HubWithinCentres(cs: seq<Point>)
    requires |cs| > 0
    ensures exists i :: 0 <= i < |cs| && cs[i].x <= HubPoint(cs).x
    ensures exists i :: 0 <= i < |cs| && HubPoint(cs).x <= cs[i].x
    ensures exists i :: 0 <= i < |cs| && cs[i].y <= HubPoint(cs).y
    ensures exists i :: 0 <= i < |cs| && HubPoint(cs).y <= cs[i].y
  {
    var xlo, xhi := FloorMeanBetween(Xs(cs));
    var ylo, yhi := FloorMeanBetween(Ys(cs));
    assert cs[xlo].x <= HubPoint(cs).x <= cs[xhi].x;
    assert cs[ylo].y <= HubPoint(cs).y <= cs[yhi].y;
  }
}
