/**
 * Region selection: keep the regions whose area exceeds the minimum, rank
 * them by area, largest first, with Python's stable `sorted(..., reverse=True)`,
 * and keep the first `max_blobs` with Python's slice `[:max_blobs]`. Rank in
 * this list is the only per-frame identity a region has.
 */
module Selection {
  import opened Geometry

  /** A detected region: its bounding box (`cv2.boundingRect`) and its area (`cv2.contourArea`). */
  datatype Region = Region(box: Box, area: real)

  /** The regions whose area is strictly above `minArea`, in enumeration order. */
  function Passing(regions: seq<Region>, minArea: int): (p: seq<Region>)
    ensures forall i :: 0 <= i < |p| ==> p[i].area > minArea as real
  {
    if regions == [] then []
    else
      var init, last := regions[..|regions| - 1], regions[|regions| - 1];
      assert regions == init + [last];
      Passing(init, minArea) + (if last.area > minArea as real then [last] else [])
  }

  /** The passing regions are regions of the input: filtering invents and duplicates nothing. */
  lemma {:induction false} PassingDrawnFromInput(regions: seq<Region>, minArea: int)
    ensures multiset(Passing(regions, minArea)) <= multiset(regions)
  {
    if regions != [] {
      var init, last := regions[..|regions| - 1], regions[|regions| - 1];
      assert regions == init + [last];
      PassingDrawnFromInput(init, minArea);
    }
  }

  /** The regions of `s` whose area is exactly `a`, in their order in `s`. */
  function WithArea(s: seq<Region>, a: real): seq<Region> {
    if s == [] then [] else (if s[0].area == a then [s[0]] else []) + WithArea(s[1..], a)
  }

  predicate NonIncreasing(s: seq<Region>) {
    forall i, j :: 0 <= i < j < |s| ==> s[i].area >= s[j].area
  }

  /** Insert `x` into a ranked list in front of the first region no larger than it. */
  function Insert(x: Region, t: seq<Region>): (r: seq<Region>)
    ensures |r| == |t| + 1
    ensures multiset(r) == multiset(t) + multiset{x}
  {
    if t == [] then [x]
    else if x.area >= t[0].area then [x] + t
    else
      assert t == [t[0]] + t[1..];
      [t[0]] + Insert(x, t[1..])
  }

  lemma {:induction false} InsertKeepsRanking(x: Region, t: seq<Region>)
    requires NonIncreasing(t)
    ensures NonIncreasing(Insert(x, t))
  {
    if t != [] && x.area < t[0].area {
      var rest := Insert(x, t[1..]);
      InsertKeepsRanking(x, t[1..]);
      forall i | 0 <= i < |rest|
        ensures t[0].area >= rest[i].area
      {
        assert rest[i] in multiset(rest);
        assert rest[i] == x || rest[i] in multiset(t[1..]);
        if rest[i] != x {
          var j :| 0 <= j < |t[1..]| && t[1..][j] == rest[i];
          assert t[j + 1] == rest[i];
        }
      }
      assert Insert(x, t) == [t[0]] + rest;
    }
  }

  /**
   * Regions ranked by area, largest first; regions of equal area keep the
   * order they had (a stable sort, as Python's `sorted` is).
   */
  function SortByArea(s: seq<Region>): (r: seq<Region>)
    ensures |r| == |s|
    ensures NonIncreasing(r)
    ensures multiset(r) == multiset(s)
  {
    if s == [] then []
    else
      assert s == [s[0]] + s[1..];
      InsertKeepsRanking(s[0], SortByArea(s[1..]));
      Insert(s[0], SortByArea(s[1..]))
  }

  /** The length of Python's `s[:n]` for a list of length `len`; a negative `n` counts from the end. */
  function SliceStop(len: nat, n: int): (k: nat)
    ensures k <= len
  {
    if n >= 0 then Min(n, len) else Max(0, len + n)
  }

  /** Python's `s[:n]`. */
  function PyTake(s: seq<Region>, n: int): (r: seq<Region>)
    ensures |r| <= |s| && r == s[..|r|]
    ensures n >= 0 ==> |r| == Min(n, |s|)
    ensures n < 0 ==> |r| == Max(0, |s| + n)
  {
    s[..SliceStop(|s|, n)]
  }

  /** The regions a frame annotates, in rank order. */
  function Selected(regions: seq<Region>, minArea: int, maxBlobs: int): seq<Region> {
    PyTake(SortByArea(Passing(regions, minArea)), maxBlobs)
  }

  predicate IsPrefix(p: seq<Region>, s: seq<Region>) {
    |p| <= |s| && p == s[..|p|]
  }

  // ----- Filtering by area -----

  lemma {:induction false} WithAreaConcat(s: seq<Region>, t: seq<Region>, a: real)
    ensures WithArea(s + t, a) == WithArea(s, a) + WithArea(t, a)
  {
    if s == [] {
      assert s + t == t;
    } else {
      var head := if s[0].area == a then [s[0]] else [];
      assert (s + t)[0] == s[0];
      assert (s + t)[1..] == s[1..] + t;
      assert WithArea(s + t, a) == head + WithArea(s[1..] + t, a);
      WithAreaConcat(s[1..], t, a);
      assert WithArea(s, a) == head + WithArea(s[1..], a);
      assert head + (WithArea(s[1..], a) + WithArea(t, a)) == (head + WithArea(s[1..], a)) + WithArea(t, a);
    }
  }

  lemma {:induction false} WithAreaOfPrefix(s: seq<Region>, k: nat, a: real)
    requires k <= |s|
    ensures IsPrefix(WithArea(s[..k], a), WithArea(s, a))
  {
    assert s == s[..k] + s[k..];
    WithAreaConcat(s[..k], s[k..], a);
  }

  /** For each area, the passing regions of that area are the input's regions of that area, or none. */
  lemma {:induction false} PassingWithArea(regions: seq<Region>, minArea: int, a: real)
    ensures WithArea(Passing(regions, minArea), a)
         == if a > minArea as real then WithArea(regions, a) else []
  {
    if regions != [] {
      var init, last := regions[..|regions| - 1], regions[|regions| - 1];
      assert regions == init + [last];
      PassingWithArea(init, minArea, a);
      WithAreaConcat(init, [last], a);
      WithAreaConcat(Passing(init, minArea), if last.area > minArea as real then [last] else [], a);
    }
  }

  // ----- Stability of the sort -----

  lemma WithAreaCons(y: Region, t: seq<Region>, a: real)
    ensures WithArea([y] + t, a) == (if y.area == a then [y] else []) + WithArea(t, a)
  {
    assert ([y] + t)[0] == y;
    assert ([y] + t)[1..] == t;
  }

  lemma {:induction false} InsertKeepsAreaOrder(x: Region, t: seq<Region>, a: real)
    ensures WithArea(Insert(x, t), a) == WithArea([x] + t, a)
  {
    if t != [] && x.area < t[0].area {
      var first, more := t[0], t[1..];
      var rest := Insert(x, more);
      assert Insert(x, t) == [first] + rest;
      assert t == [first] + more;
      var head := if first.area == a then [first] else [];
      var mid := if x.area == a then [x] else [];
      var tail := WithArea(more, a);
      InsertKeepsAreaOrder(x, more, a);
      WithAreaCons(first, rest, a);
      WithAreaCons(x, more, a);
      WithAreaCons(x, t, a);
      WithAreaCons(first, more, a);
      assert WithArea(Insert(x, t), a) == head + (mid + tail);
      assert WithArea([x] + t, a) == mid + (head + tail);
      // x and t[0] differ in area, so at most one of them has area `a`.
      if x.area == a {
        assert head == [];
      } else {
        assert mid == [];
      }
    } else {
      assert Insert(x, t) == [x] + t;
    }
  }

  /** Sorting keeps, for every area, the regions of that area in their original order. */
  lemma {:induction false} SortKeepsAreaOrder(s: seq<Region>, a: real)
    ensures WithArea(SortByArea(s), a) == WithArea(s, a)
  {
    if s != [] {
      SortKeepsAreaOrder(s[1..], a);
      InsertKeepsAreaOrder(s[0], SortByArea(s[1..]), a);
      assert ([s[0]] + SortByArea(s[1..]))[1..] == SortByArea(s[1..]);
    }
  }

  lemma {:induction false} WithAreaWitness(s: seq<Region>, a: real) returns (j: nat)
    requires WithArea(s, a) != []
    ensures j < |s| && s[j].area == a
  {
    if s[0].area == a {
      j := 0;
    } else {
      var k := WithAreaWitness(s[1..], a);
      j := k + 1;
    }
  }

  lemma ClassesDecideEmptiness(u: seq<Region>, v: seq<Region>)
    requires forall a :: WithArea(u, a) == WithArea(v, a)
    ensures u == [] <==> v == []
  {
    if u != [] {
      assert WithArea(u, u[0].area) != [];
    }
    if v != [] {
      assert WithArea(v, v[0].area) != [];
    }
  }

  /** If `u` and `v` agree on the regions of `u`'s leading area, `v` leads with a region at least that large. */
  lemma LeadAtLeast(u: seq<Region>, v: seq<Region>)
    requires u != [] && NonIncreasing(v)
    requires WithArea(u, u[0].area) == WithArea(v, u[0].area)
    ensures v != [] && v[0].area >= u[0].area
    ensures v[0].area == u[0].area ==> v[0] == u[0]
  {
    var m := u[0].area;
    WithAreaCons(u[0], u[1..], m);
    assert u == [u[0]] + u[1..];
    assert WithArea(u, m)[0] == u[0];
    var j := WithAreaWitness(v, m);
    assert v[0].area >= v[j].area;
    if v[0].area == m {
      WithAreaCons(v[0], v[1..], m);
      assert v == [v[0]] + v[1..];
      assert WithArea(v, m)[0] == v[0];
    }
  }

  lemma ClassesDecideHead(u: seq<Region>, v: seq<Region>)
    requires u != [] && v != []
    requires NonIncreasing(u) && NonIncreasing(v)
    requires forall a :: WithArea(u, a) == WithArea(v, a)
    ensures u[0] == v[0]
  {
    var m, n := u[0].area, v[0].area;
    assert WithArea(u, m) == WithArea(v, m);
    LeadAtLeast(u, v);
    assert WithArea(v, n) == WithArea(u, n);
    LeadAtLeast(v, u);
  }

  lemma ClassesDecideTail(u: seq<Region>, v: seq<Region>, a: real)
    requires u != [] && v != [] && u[0] == v[0]
    requires WithArea(u, a) == WithArea(v, a)
    ensures WithArea(u[1..], a) == WithArea(v[1..], a)
  {
    var head := if u[0].area == a then [u[0]] else [];
    assert WithArea(u, a) == head + WithArea(u[1..], a);
    assert WithArea(v, a) == head + WithArea(v[1..], a);
    assert WithArea(u[1..], a) == WithArea(u, a)[|head|..];
    assert WithArea(v[1..], a) == WithArea(v, a)[|head|..];
  }

  /**
   * A stable ranking is unique: two lists ranked by area that agree, for
   * every area, on the order of the regions of that area are the same list.
   */
  lemma {:induction false} StableRankingUnique(u: seq<Region>, v: seq<Region>)
    requires NonIncreasing(u) && NonIncreasing(v)
    requires forall a :: WithArea(u, a) == WithArea(v, a)
    ensures u == v
  {
    ClassesDecideEmptiness(u, v);
    if u != [] {
      ClassesDecideHead(u, v);
      forall a
        ensures WithArea(u[1..], a) == WithArea(v[1..], a)
      {
        ClassesDecideTail(u, v, a);
      }
      StableRankingUnique(u[1..], v[1..]);
      assert u == [u[0]] + u[1..] && v == [v[0]] + v[1..];
    }
  }

  /**
   * Any stable ranking of `s` by area, largest first, is `SortByArea(s)`:
   * the model's insertion sort stands for every stable sort, Timsort included.
   */
  lemma SortByAreaIsTheStableRanking(s: seq<Region>, v: seq<Region>)
    requires NonIncreasing(v)
    requires forall a :: WithArea(v, a) == WithArea(s, a)
    ensures v == SortByArea(s)
  {
    forall a
      ensures WithArea(SortByArea(s), a) == WithArea(v, a)
    {
      SortKeepsAreaOrder(s, a);
    }
    StableRankingUnique(SortByArea(s), v);
  }

  // ----- What the selected list is -----

  /** Every selected region is strictly larger than the minimum area. */
  lemma SelectedAboveMinArea(regions: seq<Region>, minArea: int, maxBlobs: int)
    ensures forall i :: 0 <= i < |Selected(regions, minArea, maxBlobs)| ==>
      Selected(regions, minArea, maxBlobs)[i].area > minArea as real
  {
    var p := Passing(regions, minArea);
    var sorted := SortByArea(p);
    var sel := Selected(regions, minArea, maxBlobs);
    forall i | 0 <= i < |sel|
      ensures sel[i].area > minArea as real
    {
      assert sel[i] == sorted[i];
      assert sorted[i] in multiset(sorted);
      assert sel[i] in multiset(p);
    }
  }

  /** The selected list is ranked by area, largest first. */
  lemma SelectedNonIncreasing(regions: seq<Region>, minArea: int, maxBlobs: int)
    ensures NonIncreasing(Selected(regions, minArea, maxBlobs))
  {
    var sorted := SortByArea(Passing(regions, minArea));
    var sel := Selected(regions, minArea, maxBlobs);
    assert forall i :: 0 <= i < |sel| ==> sel[i] == sorted[i];
  }

  /**
   * The selected list holds min(#passing, max_blobs) regions; a negative
   * `max_blobs` drops that many of the smallest passing regions.
   */
  lemma SelectedCount(regions: seq<Region>, minArea: int, maxBlobs: int)
    ensures var n := |Passing(regions, minArea)|;
      |Selected(regions, minArea, maxBlobs)| == if maxBlobs >= 0 then Min(n, maxBlobs) else Max(0, n + maxBlobs)
  {
  }

  /**
   * Regions of equal area keep their enumeration order: for every area, the
   * selected regions of that area are the first ones of the input's.
   */
  lemma SelectedKeepsEnumerationOrder(regions: seq<Region>, minArea: int, maxBlobs: int, a: real)
    ensures IsPrefix(WithArea(Selected(regions, minArea, maxBlobs), a), WithArea(regions, a))
  {
    var p := Passing(regions, minArea);
    var sorted := SortByArea(p);
    var sel := Selected(regions, minArea, maxBlobs);
    assert sel == sorted[..|sel|];
    WithAreaOfPrefix(sorted, |sel|, a);
    SortKeepsAreaOrder(p, a);
    PassingWithArea(regions, minArea, a);
  }

  /**
   * Truncation drops only the smallest: the selection is drawn from the
   * passing regions, and every passing region left out is no larger than
   * any region kept.
   */
  lemma SelectedDropsOnlySmaller(regions: seq<Region>, minArea: int, maxBlobs: int)
    ensures var p, sel := Passing(regions, minArea), Selected(regions, minArea, maxBlobs);
      && multiset(sel) <= multiset(p)
      && forall q, i :: q in multiset(p) - multiset(sel) && 0 <= i < |sel| ==> sel[i].area >= q.area
  {
    var sorted := SortByArea(Passing(regions, minArea));
    var sel := Selected(regions, minArea, maxBlobs);
    assert sel == sorted[..|sel|];
    RankedPrefixDominates(sorted, |sel|);
  }

  /** In a ranked list, a prefix holds part of the list, and nothing after it is larger than anything in it. */
  lemma RankedPrefixDominates(sorted: seq<Region>, k: nat)
    requires NonIncreasing(sorted) && k <= |sorted|
    ensures multiset(sorted[..k]) <= multiset(sorted)
    ensures forall q, i :: q in multiset(sorted) - multiset(sorted[..k]) && 0 <= i < k ==> sorted[..k][i].area >= q.area
  {
    var sel, rest := sorted[..k], sorted[k..];
    assert sorted == sel + rest;
    assert multiset(sorted) == multiset(sel) + multiset(rest);
    forall q, i | q in multiset(sorted) - multiset(sel) && 0 <= i < k
      ensures sel[i].area >= q.area
    {
      assert q in multiset(rest);
      var j :| 0 <= j < |rest| && rest[j] == q;
      assert sorted[k + j] == q;
    }
  }

  /** The filtering loop: appends, in enumeration order, each region whose area exceeds `minArea`. */
  method FilterPassing(regions: seq<Region>, minArea: int) returns (valid: seq<Region>)
    ensures valid == Passing(regions, minArea)
  {
    valid := [];
    for i := 0 to |regions|
      invariant valid == Passing(regions[..i], minArea)
    {
      assert regions[..i + 1][..i] == regions[..i];
      if regions[i].area > minArea as real {
        valid := valid + [regions[i]];
      }
    }
    assert regions[..|regions|] == regions;
  }

  /**
   * The selection step of the frame loop: the filtering loop, then the
   * stable sort by area, largest first, then the cut to `maxBlobs`.
   */
  method SelectBlobs(regions: seq<Region>, minArea: int, maxBlobs: int) returns (blobs: seq<Region>)
    ensures blobs == Selected(regions, minArea, maxBlobs)
    ensures forall i :: 0 <= i < |blobs| ==> blobs[i].area > minArea as real
    ensures NonIncreasing(blobs)
    ensures maxBlobs >= 0 ==> |blobs| <= maxBlobs
  {
    var valid := FilterPassing(regions, minArea);
    blobs := PyTake(SortByArea(valid), maxBlobs);
    SelectedAboveMinArea(regions, minArea, maxBlobs);
    SelectedNonIncreasing(regions, minArea, maxBlobs);
  }
}
