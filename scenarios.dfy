/**
 * Selections worked through by hand: concrete areas and thresholds, and
 * the exact ranked list the frame loop keeps.
 */
module SelectionScenarios {
  import opened Geometry
  import opened Selection

  /**
   * Areas 9000, 100 and 5000 with a threshold of 4096 and at most two
   * regions: the 100 is dropped and the other two are ranked 9000 first.
   */
  lemma SmallRegionDropped(a: Box, b: Box, c: Box)
    ensures Selected([Region(a, 9000.0), Region(b, 100.0), Region(c, 5000.0)], 4096, 2)
         == [Region(a, 9000.0), Region(c, 5000.0)]
  {
    var r0, r1, r2 := Region(a, 9000.0), Region(b, 100.0), Region(c, 5000.0);
    DropSecond(r0, r1, r2);
    RankTwo(r0, r2);
  }

  lemma DropSecond(r0: Region, r1: Region, r2: Region)
    requires r0.area > 4096.0 && r1.area <= 4096.0 && r2.area > 4096.0
    ensures Passing([r0, r1, r2], 4096) == [r0, r2]
  {
    assert Passing([r0], 4096) == [r0] by { assert [r0][..0] == []; }
    assert Passing([r0, r1], 4096) == [r0] by { assert [r0, r1][..1] == [r0]; }
    assert [r0, r1, r2][..2] == [r0, r1];
  }

  lemma RankTwo(r0: Region, r1: Region)
    requires r0.area >= r1.area
    ensures SortByArea([r0, r1]) == [r0, r1]
    ensures PyTake([r0, r1], 2) == [r0, r1]
  {
    assert SortByArea([r1]) == [r1] by { assert [r1][1..] == []; }
    assert [r0, r1][1..] == [r1];
  }

  lemma SelectOne(r: Region)
    requires r.area > 4096.0
    ensures Selected([r], 4096, 32) == [r]
  {
    assert [r][..0] == [];
    assert Passing([r], 4096) == [r];
    assert [r][1..] == [];
    assert SortByArea([r]) == [r];
  }

  lemma SelectTwo(r0: Region, r1: Region)
    requires r0.area >= r1.area > 4096.0
    ensures Selected([r0, r1], 4096, 32) == [r0, r1]
  {
    assert Passing([r0], 4096) == [r0] by { assert [r0][..0] == []; }
    assert Passing([r0, r1], 4096) == [r0, r1] by { assert [r0, r1][..1] == [r0]; }
    assert SortByArea([r1]) == [r1] by { assert [r1][1..] == []; }
    assert SortByArea([r0, r1]) == [r0, r1] by { assert [r0, r1][1..] == [r1]; }
  }
}

/**
 * Whole frames worked through by hand: concrete regions and settings, and
 * the exact draw calls the annotation loop makes for them.
 */
module Scenarios {
  import opened Decimal
  import opened Colour
  import opened Geometry
  import opened Labels
  import opened Connections
  import opened Selection
  import opened Config
  import opened Annotate
  import opened SelectionScenarios

  const Green := Bgr(0, 255, 0)
  const White := Bgr(255, 255, 255)
  const Orange := Bgr(0, 150, 255)

  function Style(shape: ShapeKind, connection: ConnectionKind, labelKind: LabelKind, maxBlobs: int): Settings {
    Settings(shape, Green, 2, connection, Orange, Dynamic, maxBlobs, 4096, labelKind, White)
  }

  lemma FlattenOne(p: seq<DrawOp>)
    ensures Flatten([p]) == p
  {
    assert [p][..0] == [];
  }

  lemma FlattenTwo(p: seq<DrawOp>, q: seq<DrawOp>)
    ensures Flatten([p, q]) == p + q
  {
    assert [p, q][..1] == [p];
    FlattenOne(p);
  }

  lemma BlobsOpsOne(r: Region, st: Settings)
    ensures BlobsOps([r], st) == BlobOps(0, r, st)
  {
    assert [r][..0] == [];
    assert BlobParts([r], st) == [BlobOps(0, r, st)];
    FlattenOne(BlobOps(0, r, st));
  }

  lemma BlobsOpsTwo(r0: Region, r1: Region, st: Settings)
    ensures BlobsOps([r0, r1], st) == BlobOps(0, r0, st) + BlobOps(1, r1, st)
  {
    assert [r0, r1][..1] == [r0] && [r0][..0] == [];
    assert BlobParts([r0, r1], st) == [BlobOps(0, r0, st), BlobOps(1, r1, st)];
    FlattenTwo(BlobOps(0, r0, st), BlobOps(1, r1, st));
  }

  /** One region of area 10000 above a threshold of 4096, rectangles and index labels: one box and "#1". */
  lemma SingleRegionGetsBoxAndIndex()
    ensures FrameOps([Region(Box(10, 20, 100, 100), 10000.0)], Style(RectangleShape, NoConnection, IndexLabel, 32))
         == [Rectangle(Point(10, 20), Point(110, 120), Green, 2), Text("#1", Point(10, 10), White, 2)]
  {
    var r := Region(Box(10, 20, 100, 100), 10000.0);
    var st := Style(RectangleShape, NoConnection, IndexLabel, 32);
    SelectOne(r);
    BlobsOpsOne(r, st);
    assert IntToDecimal(1) == "1";
    assert LabelText(IndexLabel, 0, Centre(r.box)) == "#1";
    assert BlobOps(0, r, st) == [Rectangle(Point(10, 20), Point(110, 120), Green, 2), Text("#1", Point(10, 10), White, 2)];
    FrameOpsOfSelection([r], [r], st);
  }

  /** Two regions connected in sequence: after both boxes, exactly one line from the first centre to the second. */
  lemma TwoRegionsOneLink()
    ensures var regions := [Region(Box(0, 0, 10, 10), 5000.0), Region(Box(100, 40, 20, 30), 4500.0)];
      FrameOps(regions, Style(RectangleShape, Sequential, NoLabel, 32))
        == [Rectangle(Point(0, 0), Point(10, 10), Green, 2),
            Rectangle(Point(100, 40), Point(120, 70), Green, 2),
            Line(Point(5, 5), Point(110, 55), Orange, 2)]
  {
    var r0, r1 := Region(Box(0, 0, 10, 10), 5000.0), Region(Box(100, 40, 20, 30), 4500.0);
    var st := Style(RectangleShape, Sequential, NoLabel, 32);
    SelectTwo(r0, r1);
    TwoBoxes(r0, r1, st);
    OneLink(r0, r1);
    FrameOpsOfSelection([r0, r1], [r0, r1], st);
  }

  /** A frame whose selection is known: that selection's region ops, then its connections. */
  lemma FrameOpsOfSelection(regions: seq<Region>, sel: seq<Region>, st: Settings)
    requires Selected(regions, st.minArea, st.maxBlobs) == sel
    ensures FrameOps(regions, st)
         == BlobsOps(sel, st) + ConnectionOps(st.connection, Centres(sel), st.connColour, st.thickness)
  {
  }

  lemma OneLink(r0: Region, r1: Region)
    requires r0.box == Box(0, 0, 10, 10) && r1.box == Box(100, 40, 20, 30)
    ensures ConnectionOps(Sequential, Centres([r0, r1]), Orange, 2) == [Line(Point(5, 5), Point(110, 55), Orange, 2)]
  {
    var cs := [Point(5, 5), Point(110, 55)];
    assert Centres([r0, r1]) == cs;
    SequentialLayout(cs, Orange, 2);
  }

  lemma TwoBoxes(r0: Region, r1: Region, st: Settings)
    requires r0 == Region(Box(0, 0, 10, 10), 5000.0) && r1 == Region(Box(100, 40, 20, 30), 4500.0)
    requires st == Style(RectangleShape, Sequential, NoLabel, 32)
    ensures BlobsOps([r0, r1], st)
         == [Rectangle(Point(0, 0), Point(10, 10), Green, 2), Rectangle(Point(100, 40), Point(120, 70), Green, 2)]
  {
    BlobsOpsTwo(r0, r1, st);
    assert BlobOps(0, r0, st) == [Rectangle(Point(0, 0), Point(10, 10), Green, 2)];
    assert BlobOps(1, r1, st) == [Rectangle(Point(100, 40), Point(120, 70), Green, 2)];
  }
}
