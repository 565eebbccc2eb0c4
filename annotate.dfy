/**
 * The per-frame annotation loop. The frame is an object that the loop
 * changes with one OpenCV call after another; it is modelled as the log of
 * those calls. `FrameOps` is what one frame must receive, and
 * `AnnotateFrame` follows the source's loop step by step and is proved to
 * draw exactly that.
 */
module Annotate {
  import opened Decimal
  import opened Colour
  import opened Geometry
  import opened Labels
  import opened Connections
  import opened Selection
  import opened Config

  /** A video frame, seen as the drawing calls made on it, oldest first. */
  class Frame {
    var drawn: seq<DrawOp>

    constructor ()
      ensures drawn == []
    {
      drawn := [];
    }

    /** `cv2.rectangle` */
    method DrawRectangle(p: Point, q: Point, colour: Bgr, thick: int)
      modifies this
      ensures drawn == old(drawn) + [DrawOp.Rectangle(p, q, colour, thick)]
    {
      drawn := drawn + [DrawOp.Rectangle(p, q, colour, thick)];
    }

    /** `cv2.circle` */
    method DrawCircle(c: Point, radius: int, colour: Bgr, thick: int)
      modifies this
      ensures drawn == old(drawn) + [DrawOp.Circle(c, radius, colour, thick)]
    {
      drawn := drawn + [DrawOp.Circle(c, radius, colour, thick)];
    }

    /** `cv2.line` */
    method DrawLine(p: Point, q: Point, colour: Bgr, thick: int)
      modifies this
      ensures drawn == old(drawn) + [DrawOp.Line(p, q, colour, thick)]
    {
      drawn := drawn + [DrawOp.Line(p, q, colour, thick)];
    }

    /** `cv2.putText` */
    method PutText(text: string, origin: Point, colour: Bgr, thick: int)
      modifies this
      ensures drawn == old(drawn) + [DrawOp.Text(text, origin, colour, thick)]
    {
      drawn := drawn + [DrawOp.Text(text, origin, colour, thick)];
    }
  }

  // ----- What one frame receives -----

  /**
   * The box a region's shape and label are drawn on. Resizing keeps the
   * centre; in Fixed mode the box is a square whose side is the configured
   * size rounded down to an even number.
   */
  function SlotBox(b: Box, sizing: Sizing): (r: Box)
    ensures Centre(r) == Centre(b)
    ensures sizing.Dynamic? ==> r == b
    ensures sizing.Fixed? ==> r.w == r.h == sizing.size - sizing.size % 2
  {
    match sizing
    case Dynamic => b
    case Fixed(size) => FixedBox(Centre(b), size)
  }

  /** The centres of the selected regions, in rank order, from their unresized boxes. */
  function Centres(blobs: seq<Region>): (cs: seq<Point>)
    ensures |cs| == |blobs| && forall i :: 0 <= i < |blobs| ==> cs[i] == Centre(blobs[i].box)
  {
    if blobs == [] then []
    else Centres(blobs[..|blobs| - 1]) + [Centre(blobs[|blobs| - 1].box)]
  }

  /** The ops for the region of rank `rank`: its shape, then its label. */
  function BlobOps(rank: nat, region: Region, st: Settings): seq<DrawOp> {
    var c := Centre(region.box);
    var b := SlotBox(region.box, st.sizing);
    ShapeOps(st.shape, b, c, st.boxColour, st.thickness) + LabelOps(st.labelKind, rank, c, b, st.textColour)
  }

  /** How many ops each region gets; the same for every region of a run. */
  function PerBlobCount(st: Settings): nat {
    ShapeOpCount(st.shape) + (if LabelEmits(st.labelKind) then 1 else 0)
  }

  /** The ops of each region, in rank order. */
  function BlobParts(blobs: seq<Region>, st: Settings): (parts: seq<seq<DrawOp>>)
    ensures |parts| == |blobs|
    ensures forall i :: 0 <= i < |blobs| ==> parts[i] == BlobOps(i, blobs[i], st)
  {
    if blobs == [] then []
    else
      var init := blobs[..|blobs| - 1];
      assert forall i :: 0 <= i < |init| ==> init[i] == blobs[i];
      BlobParts(init, st) + [BlobOps(|blobs| - 1, blobs[|blobs| - 1], st)]
  }

  /** The parts one after another. */
  function Flatten(parts: seq<seq<DrawOp>>): seq<DrawOp> {
    if parts == [] then [] else Flatten(parts[..|parts| - 1]) + parts[|parts| - 1]
  }

  /** The ops for all regions of the list, in rank order. */
  function BlobsOps(blobs: seq<Region>, st: Settings): seq<DrawOp> {
    Flatten(BlobParts(blobs, st))
  }

  /** Everything one frame receives: each selected region's ops, then the connections. */
  function FrameOps(regions: seq<Region>, st: Settings): seq<DrawOp> {
    SelectionOps(Selected(regions, st.minArea, st.maxBlobs), st)
  }

  // ----- The order of the ops -----

  lemma MulMono(a: nat, b: nat, k: nat)
    requires a <= b
    ensures a * k <= b * k
  {
  }

  /** Block i of n blocks of length k starts at i * k and ends within n * k. */
  lemma BlockFits(i: nat, n: nat, k: nat)
    requires i < n
    ensures 0 <= i * k && i * k + k == (i + 1) * k <= n * k
  {
    MulMono(i + 1, n, k);
  }

  lemma {:induction false} FlattenLength(parts: seq<seq<DrawOp>>, k: nat)
    requires forall i :: 0 <= i < |parts| ==> |parts[i]| == k
    ensures |Flatten(parts)| == |parts| * k
  {
    if parts != [] {
      FlattenLength(parts[..|parts| - 1], k);
      BlockFits(|parts| - 1, |parts|, k);
    }
  }

  lemma {:induction false} FlattenConcat(p: seq<seq<DrawOp>>, q: seq<seq<DrawOp>>)
    ensures Flatten(p + q) == Flatten(p) + Flatten(q)
  {
    if q == [] {
      assert p + q == p;
    } else {
      var init := q[..|q| - 1];
      assert (p + q)[..|p + q| - 1] == p + init;
      FlattenConcat(p, init);
    }
  }

  /** Parts of equal length k: part i of n fills positions [i*k, i*k + k) of the whole. */
  lemma FlattenLayout(parts: seq<seq<DrawOp>>, k: nat)
    requires forall i :: 0 <= i < |parts| ==> |parts[i]| == k
    ensures |Flatten(parts)| == |parts| * k
    ensures forall i :: 0 <= i < |parts| ==>
      i * k + k <= |parts| * k && Flatten(parts)[i * k .. i * k + k] == parts[i]
  {
    FlattenLength(parts, k);
    forall i | 0 <= i < |parts|
      ensures i * k + k <= |parts| * k && Flatten(parts)[i * k .. i * k + k] == parts[i]
    {
      BlockFits(i, |parts|, k);
      FlattenBlock(parts, i, k);
    }
  }

  lemma FlattenBlock(parts: seq<seq<DrawOp>>, i: nat, k: nat)
    requires forall j :: 0 <= j < |parts| ==> |parts[j]| == k
    requires i < |parts|
    ensures 0 <= i * k && i * k + k <= |Flatten(parts)| && Flatten(parts)[i * k .. i * k + k] == parts[i]
  {
    var before, after := parts[..i], parts[i + 1..];
    assert parts == (before + [parts[i]]) + after;
    assert (before + [parts[i]])[..i] == before;
    FlattenConcat(before + [parts[i]], after);
    FlattenLength(before, k);
    var head := Flatten(before);
    assert Flatten(parts) == (head + parts[i]) + Flatten(after);
    assert Flatten(parts)[i * k .. i * k + k] == parts[i];
  }

  lemma BlobOpsCount(rank: nat, region: Region, st: Settings)
    ensures |BlobOps(rank, region, st)| == PerBlobCount(st)
  {
  }

  lemma BlobPartsCount(blobs: seq<Region>, st: Settings)
    ensures forall i :: 0 <= i < |blobs| ==> |BlobParts(blobs, st)[i]| == PerBlobCount(st)
  {
    forall i | 0 <= i < |blobs|
      ensures |BlobParts(blobs, st)[i]| == PerBlobCount(st)
    {
      BlobOpsCount(i, blobs[i], st);
    }
  }

  lemma BlobsOpsLength(blobs: seq<Region>, st: Settings)
    ensures |BlobsOps(blobs, st)| == |blobs| * PerBlobCount(st)
  {
    BlobPartsCount(blobs, st);
    FlattenLayout(BlobParts(blobs, st), PerBlobCount(st));
  }

  lemma CentresSnoc(blobs: seq<Region>, i: nat)
    requires i < |blobs|
    ensures Centres(blobs[..i + 1]) == Centres(blobs[..i]) + [Centre(blobs[i].box)]
  {
    assert blobs[..i + 1][..i] == blobs[..i];
  }

  /** Adding the next region in rank order appends its ops, after whatever was drawn before. */
  lemma BlobsOpsSnoc(prev: seq<DrawOp>, blobs: seq<Region>, i: nat, st: Settings)
    requires i < |blobs|
    ensures prev + BlobsOps(blobs[..i + 1], st) == (prev + BlobsOps(blobs[..i], st)) + BlobOps(i, blobs[i], st)
  {
    assert blobs[..i + 1][..i] == blobs[..i];
  }

  /** Everything drawn for the selected regions `sel`: their ops in rank order, then the connections. */
  function SelectionOps(sel: seq<Region>, st: Settings): seq<DrawOp> {
    BlobsOps(sel, st) + ConnectionOps(st.connection, Centres(sel), st.connColour, st.thickness)
  }

  /** The selection's ops, after whatever was drawn before, are the regions' ops and then the connections. */
  lemma SelectionOpsSplit(prev: seq<DrawOp>, sel: seq<Region>, st: Settings)
    ensures prev + SelectionOps(sel, st)
         == (prev + BlobsOps(sel, st)) + ConnectionOps(st.connection, Centres(sel), st.connColour, st.thickness)
  {
    var blobOps := BlobsOps(sel, st);
    var connOps := ConnectionOps(st.connection, Centres(sel), st.connColour, st.thickness);
    assert SelectionOps(sel, st) == blobOps + connOps;
    assert prev + (blobOps + connOps) == (prev + blobOps) + connOps;
  }

  /** Equal-length parts followed by anything: part i still fills positions [i*k, i*k + k). */
  lemma FlattenThenMore(parts: seq<seq<DrawOp>>, more: seq<DrawOp>, k: nat)
    requires forall i :: 0 <= i < |parts| ==> |parts[i]| == k
    ensures forall i :: 0 <= i < |parts| ==>
      0 <= i * k && i * k + k <= |parts| * k <= |Flatten(parts) + more|
      && (Flatten(parts) + more)[i * k .. i * k + k] == parts[i]
  {
    FlattenLayout(parts, k);
    forall i | 0 <= i < |parts|
      ensures 0 <= i * k && (Flatten(parts) + more)[i * k .. i * k + k] == Flatten(parts)[i * k .. i * k + k]
    {
      MulMono(0, i, k);
    }
  }

  lemma SelectionOpsBlocks(sel: seq<Region>, st: Settings)
    ensures var k, ops, n := PerBlobCount(st), SelectionOps(sel, st), |sel|;
      forall i :: 0 <= i < n ==>
        0 <= i * k && i * k + k <= n * k <= |ops| && ops[i * k .. i * k + k] == BlobOps(i, sel[i], st)
  {
    var parts := BlobParts(sel, st);
    BlobPartsCount(sel, st);
    FlattenThenMore(parts, ConnectionOps(st.connection, Centres(sel), st.connColour, st.thickness), PerBlobCount(st));
  }

  lemma SelectionOpsTail(sel: seq<Region>, st: Settings)
    ensures var k, ops, n := PerBlobCount(st), SelectionOps(sel, st), |sel|;
      && |ops| == n * k + ConnectionOpCount(st.connection, n) && 0 <= n * k <= |ops|
      && ops[n * k..] == ConnectionOps(st.connection, Centres(sel), st.connColour, st.thickness)
  {
    var k, n := PerBlobCount(st), |sel|;
    MulMono(0, n, k);
    var blobOps := BlobsOps(sel, st);
    var connOps := ConnectionOps(st.connection, Centres(sel), st.connColour, st.thickness);
    BlobsOpsLength(sel, st);
    ConnectionOpsLength(st.connection, Centres(sel), st.connColour, st.thickness);
    assert SelectionOps(sel, st) == blobOps + connOps;
    assert (blobOps + connOps)[n * k..] == connOps;
  }

  /**
   * The draw order of a frame: with n regions selected and k ops per region,
   * the ops of the region of rank i fill positions [i*k, i*k + k), shape
   * before label, and the connection ops come after all of them.
   */
  lemma FrameLayout(regions: seq<Region>, st: Settings)
    ensures var sel, k := Selected(regions, st.minArea, st.maxBlobs), PerBlobCount(st);
      var ops, n := FrameOps(regions, st), |sel|;
      && |ops| == n * k + ConnectionOpCount(st.connection, n) && 0 <= n * k <= |ops|
      && (forall i :: 0 <= i < n ==>
            0 <= i * k && i * k + k <= n * k && ops[i * k .. i * k + k] == BlobOps(i, sel[i], st))
      && ops[n * k..] == ConnectionOps(st.connection, Centres(sel), st.connColour, st.thickness)
  {
    var sel := Selected(regions, st.minArea, st.maxBlobs);
    SelectionOpsBlocks(sel, st);
    SelectionOpsTail(sel, st);
  }

  /**
   * Within a region's block the shape comes first and the label last: the
   * shape is drawn on the (possibly resized) box around the centre of the
   * raw box, and the label, if any, is the block's final op.
   */
  lemma BlobDrawOrder(rank: nat, region: Region, st: Settings)
    ensures var ops, s := BlobOps(rank, region, st), ShapeOpCount(st.shape);
      var c, b := Centre(region.box), SlotBox(region.box, st.sizing);
      && s <= |ops| == PerBlobCount(st)
      && ops[..s] == ShapeOps(st.shape, b, c, st.boxColour, st.thickness)
      && (LabelEmits(st.labelKind) ==>
            ops[s] == Text(LabelText(st.labelKind, rank, c), Point(b.x, b.y - 10), st.textColour, TextThickness))
  {
    var c, b := Centre(region.box), SlotBox(region.box, st.sizing);
    var shape := ShapeOps(st.shape, b, c, st.boxColour, st.thickness);
    var tag := LabelOps(st.labelKind, rank, c, b, st.textColour);
    assert BlobOps(rank, region, st) == shape + tag;
    assert (shape + tag)[..|shape|] == shape;
  }

  // ----- The loop that draws them -----

  /** The shape branch of the loop body. */
  method DrawShape(f: Frame, kind: ShapeKind, b: Box, c: Point, colour: Bgr, thick: int)
    modifies f
    ensures f.drawn == old(f.drawn) + ShapeOps(kind, b, c, colour, thick)
  {
    var x, y, w, h := b.x, b.y, b.w, b.h;
    match kind
    case RectangleShape =>
      f.DrawRectangle(Point(x, y), Point(x + w, y + h), colour, thick);
    case CircleShape =>
      var radius := Max(w, h) / 2;
      f.DrawCircle(c, radius, colour, thick);
    case LFrame =>
      var l := Min(w, h) / 4;
      f.DrawLine(Point(x, y), Point(x + l, y), colour, thick);
      f.DrawLine(Point(x, y), Point(x, y + l), colour, thick);
      f.DrawLine(Point(x + w, y), Point(x + w - l, y), colour, thick);
      f.DrawLine(Point(x + w, y), Point(x + w, y + l), colour, thick);
      f.DrawLine(Point(x, y + h), Point(x + l, y + h), colour, thick);
      f.DrawLine(Point(x, y + h), Point(x, y + h - l), colour, thick);
      f.DrawLine(Point(x + w, y + h), Point(x + w - l, y + h), colour, thick);
      f.DrawLine(Point(x + w, y + h), Point(x + w, y + h - l), colour, thick);
    case Crosshair =>
      var l := Min(w, h) / 3;
      f.DrawLine(Point(c.x - l, c.y), Point(c.x + l, c.y), colour, thick);
      f.DrawLine(Point(c.x, c.y - l), Point(c.x, c.y + l), colour, thick);
    case NoShape =>
  }

  /** The label branch of the loop body: build the string, draw it when not empty. */
  method DrawLabel(f: Frame, kind: LabelKind, rank: nat, c: Point, b: Box, colour: Bgr)
    modifies f
    ensures f.drawn == old(f.drawn) + LabelOps(kind, rank, c, b, colour)
  {
    var text := "";
    match kind {
      case IndexLabel =>
        text := "#" + IntToDecimal(rank + 1);
      case CoordinatesLabel =>
        text := IntToDecimal(c.x) + "," + IntToDecimal(c.y);
      case CustomLabel(t) =>
        text := t;
      case NoLabel =>
    }
    if text != "" {
      f.PutText(text, Point(b.x, b.y - 10), colour, TextThickness);
    }
  }

  /** The sequential branch: one line from each centre to the next. */
  method DrawChain(f: Frame, cs: seq<Point>, colour: Bgr, thick: int)
    requires |cs| > 1
    modifies f
    ensures f.drawn == old(f.drawn) + Chain(cs, colour, thick)
  {
    for i := 0 to |cs| - 1
      invariant f.drawn == old(f.drawn) + Chain(cs[..i + 1], colour, thick)
    {
      assert cs[..i + 2][..i + 1] == cs[..i + 1];
      f.DrawLine(cs[i], cs[i + 1], colour, thick);
    }
    assert cs[..|cs|] == cs;
  }

  /** The hub branch: the floor mean of the centres, a filled marker there, then a spoke to each centre. */
  method DrawHub(f: Frame, cs: seq<Point>, colour: Bgr, thick: int)
    requires |cs| > 1
    modifies f
    ensures f.drawn == old(f.drawn) + [DrawOp.Circle(HubPoint(cs), HubRadius, colour, Filled)] + Spokes(HubPoint(cs), cs, colour, thick)
  {
    var hub := Point(Sum(Xs(cs)) / |cs|, Sum(Ys(cs)) / |cs|);
    f.DrawCircle(hub, HubRadius, colour, Filled);
    for i := 0 to |cs|
      invariant f.drawn == old(f.drawn) + [DrawOp.Circle(hub, HubRadius, colour, Filled)] + Spokes(hub, cs[..i], colour, thick)
    {
      assert cs[..i + 1][..i] == cs[..i];
      f.DrawLine(hub, cs[i], colour, thick);
    }
    assert cs[..|cs|] == cs;
  }

  /** The connection step after the loop. */
  method DrawConnections(f: Frame, kind: ConnectionKind, cs: seq<Point>, colour: Bgr, thick: int)
    modifies f
    ensures f.drawn == old(f.drawn) + ConnectionOps(kind, cs, colour, thick)
  {
    if |cs| > 1 {
      match kind
      case Sequential => DrawChain(f, cs, colour, thick);
      case Hub => DrawHub(f, cs, colour, thick);
      case NoConnection =>
    }
  }

  /**
   * The loop body for the region of rank `rank`: its centre from the raw
   * box, the box resized around that centre in Fixed mode, then the shape
   * and the label. Returns the centre.
   */
  method DrawBlob(f: Frame, rank: nat, region: Region, st: Settings) returns (centre: Point)
    modifies f
    ensures f.drawn == old(f.drawn) + BlobOps(rank, region, st)
    ensures centre == Centre(region.box)
  {
    var x, y, w, h := region.box.x, region.box.y, region.box.w, region.box.h;
    var cx, cy := x + w / 2, y + h / 2;
    centre := Point(cx, cy);
    if st.sizing.Fixed? {
      var s := st.sizing.size / 2;
      x, y, w, h := cx - s, cy - s, s * 2, s * 2;
    }
    assert Box(x, y, w, h) == SlotBox(region.box, st.sizing);
    DrawShape(f, st.shape, Box(x, y, w, h), centre, st.boxColour, st.thickness);
    DrawLabel(f, st.labelKind, rank, centre, Box(x, y, w, h), st.textColour);
  }

  /** The per-region loop: each selected region's shape and label, in rank order. Returns the centres. */
  method DrawBlobs(f: Frame, blobs: seq<Region>, st: Settings) returns (centres: seq<Point>)
    modifies f
    ensures f.drawn == old(f.drawn) + BlobsOps(blobs, st)
    ensures centres == Centres(blobs)
  {
    centres := [];
    for i := 0 to |blobs|
      invariant centres == Centres(blobs[..i])
      invariant f.drawn == old(f.drawn) + BlobsOps(blobs[..i], st)
    {
      CentresSnoc(blobs, i);
      var c := DrawBlob(f, i, blobs[i], st);
      centres := centres + [c];
      BlobsOpsSnoc(old(f.drawn), blobs, i, st);
    }
    assert blobs[..|blobs|] == blobs;
  }

  /**
   * One frame: select the regions, draw each one's shape and label in rank
   * order, then the connections between their centres. Returns the centres.
   */
  method AnnotateFrame(f: Frame, regions: seq<Region>, st: Settings) returns (centres: seq<Point>)
    modifies f
    ensures f.drawn == old(f.drawn) + FrameOps(regions, st)
    ensures centres == Centres(Selected(regions, st.minArea, st.maxBlobs))
  {
    var blobs := SelectBlobs(regions, st.minArea, st.maxBlobs);
    centres := DrawBlobs(f, blobs, st);
    DrawConnections(f, st.connection, centres, st.connColour, st.thickness);
    SelectionOpsSplit(old(f.drawn), blobs, st);
  }

  /** A fresh frame annotated with the regions detected in it; returns what was drawn on it. */
  method AnnotateFreshFrame(regions: seq<Region>, st: Settings) returns (ops: seq<DrawOp>)
    ensures ops == FrameOps(regions, st)
  {
    var f := new Frame();
    var _ := AnnotateFrame(f, regions, st);
    ops := f.drawn;
  }

  /** What each frame of a video receives, frame by frame. */
  function VideoOps(frames: seq<seq<Region>>, st: Settings): (v: seq<seq<DrawOp>>)
    ensures |v| == |frames|
  {
    if frames == [] then []
    else VideoOps(frames[..|frames| - 1], st) + [FrameOps(frames[|frames| - 1], st)]
  }

  /**
   * Frames are annotated independently: frame k's ops depend on frame k's
   * regions only, never on the frames before or after it.
   */
  lemma {:induction false} VideoOpsPerFrame(frames: seq<seq<Region>>, st: Settings, k: nat)
    requires k < |frames|
    ensures VideoOps(frames, st)[k] == FrameOps(frames[k], st)
  {
    if k < |frames| - 1 {
      VideoOpsPerFrame(frames[..|frames| - 1], st, k);
    }
  }

  lemma VideoOpsSnoc(frames: seq<seq<Region>>, st: Settings, k: nat)
    requires k < |frames|
    ensures VideoOps(frames[..k + 1], st) == VideoOps(frames[..k], st) + [FrameOps(frames[k], st)]
  {
    assert frames[..k + 1][..k] == frames[..k];
  }

  /**
   * The frame loop: every frame, in order, is annotated on a fresh frame
   * object, with nothing carried from one frame to the next.
   */
  method AnnotateVideo(frames: seq<seq<Region>>, st: Settings) returns (annotated: seq<seq<DrawOp>>)
    ensures annotated == VideoOps(frames, st)
  {
    annotated := [];
    for k := 0 to |frames|
      invariant annotated == VideoOps(frames[..k], st)
    {
      var ops := AnnotateFreshFrame(frames[k], st);
      VideoOpsSnoc(frames, st, k);
      annotated := annotated + [ops];
    }
    assert frames[..|frames|] == frames;
  }
}
