/**
 * Region geometry and the draw operations emitted for a region's shape.
 * Every `cv2.rectangle`, `cv2.circle`, `cv2.line` and `cv2.putText` call of
 * the annotation loop is one `DrawOp` value. Python's `//` is floor division
 * and all divisors here are positive, where Dafny's `/` floors as well.
 */
module Geometry {
  import opened Colour

  datatype Point = Point(x: int, y: int)

  /** An upright box as `cv2.boundingRect` gives it: top-left corner, width, height. */
  datatype Box = Box(x: int, y: int, w: int, h: int)

  /**
   * One drawing call. A thickness of -1 is OpenCV's `FILLED`. Font face and
   * scale of text are the same constants for every label and are not recorded.
   */
  datatype DrawOp =
    | Rectangle(corner: Point, opposite: Point, colour: Bgr, thickness: int)
    | Circle(centre: Point, radius: int, colour: Bgr, thickness: int)
    | Line(from: Point, to: Point, colour: Bgr, thickness: int)
    | Text(text: string, origin: Point, colour: Bgr, thickness: int)

  /** The shape styles; `NoShape` stands for any style string not recognised. */
  datatype ShapeKind = RectangleShape | CircleShape | LFrame | Crosshair | NoShape

  function Min(a: int, b: int): int { if a <= b then a else b }
  function Max(a: int, b: int): int { if a >= b then a else b }

  predicate Inside(b: Box, p: Point) {
    b.x <= p.x <= b.x + b.w && b.y <= p.y <= b.y + b.h
  }

  /**
   * `(x + w // 2, y + h // 2)`: the midpoint, rounded down, so that the
   * centre splits each side into halves differing by at most one pixel.
   */
  function Centre(b: Box): (c: Point)
    ensures 0 <= b.w - 2 * (c.x - b.x) <= 1
    ensures 0 <= b.h - 2 * (c.y - b.y) <= 1
  {
    Point(b.x + b.w / 2, b.y + b.h / 2)
  }

  /**
   * Fixed Size mode: with `s = size // 2`, the square `(cx - s, cy - s, 2s, 2s)`.
   * Its own centre is the centre it was built around.
   */
  function FixedBox(c: Point, size: int): (b: Box)
    ensures b.w == b.h == size - size % 2
    ensures Centre(b) == c
  {
    var s := size / 2;
    Box(c.x - s, c.y - s, s * 2, s * 2)
  }

  /** The corners in the order the L-frame visits them: top-left, top-right, bottom-left, bottom-right. */
  function Corner(b: Box, j: nat): Point
    requires j < 4
  {
    match j
    case 0 => Point(b.x, b.y)
    case 1 => Point(b.x + b.w, b.y)
    case 2 => Point(b.x, b.y + b.h)
    case 3 => Point(b.x + b.w, b.y + b.h)
  }

  function ShapeOpCount(kind: ShapeKind): nat {
    match kind
    case RectangleShape => 1
    case CircleShape => 1
    case LFrame => 8
    case Crosshair => 2
    case NoShape => 0
  }

  /** The two legs of the L-frame bracket at corner `j`, leg length `l`, pointing into the box. */
  function BracketOps(b: Box, j: nat, l: int, colour: Bgr, thick: int): seq<DrawOp>
    requires j < 4
  {
    var p := Corner(b, j);
    var dx := if j == 0 || j == 2 then l else -l;
    var dy := if j == 0 || j == 1 then l else -l;
    [Line(p, Point(p.x + dx, p.y), colour, thick), Line(p, Point(p.x, p.y + dy), colour, thick)]
  }

  /**
   * The ops for one region's shape, drawn on box `b` whose centre is `c`:
   * a rectangle spanning the box corner to corner; a circle at the centre
   * whose diameter is the longer side rounded down to an even number; an
   * L-frame (see LFrameBrackets); a crosshair of one horizontal and one
   * vertical segment, both with midpoint `c` and half-length `min(w, h) // 3`.
   * An unrecognised style draws nothing.
   */
  function ShapeOps(kind: ShapeKind, b: Box, c: Point, colour: Bgr, thick: int): (ops: seq<DrawOp>)
    ensures |ops| == ShapeOpCount(kind)
  {
    match kind
    case RectangleShape =>
      [Rectangle(Point(b.x, b.y), Point(b.x + b.w, b.y + b.h), colour, thick)]
    case CircleShape =>
      [Circle(c, Max(b.w, b.h) / 2, colour, thick)]
    case LFrame =>
      var l := Min(b.w, b.h) / 4;
      BracketOps(b, 0, l, colour, thick) + BracketOps(b, 1, l, colour, thick)
        + BracketOps(b, 2, l, colour, thick) + BracketOps(b, 3, l, colour, thick)
    case Crosshair =>
      var l := Min(b.w, b.h) / 3;
      [Line(Point(c.x - l, c.y), Point(c.x + l, c.y), colour, thick),
       Line(Point(c.x, c.y - l), Point(c.x, c.y + l), colour, thick)]
    case NoShape => []
  }

  /**
   * Every shape is drawn in the box colour and thickness; the rectangle
   * spans the box corner to corner; the circle sits on the centre with
   * radius half the longer side, rounded down; the crosshair is two
   * segments of length 2 * (min(w, h) // 3) crossing at the centre.
   */
  lemma ShapeOpsDrawTheShape(kind: ShapeKind, b: Box, c: Point, colour: Bgr, thick: int)
    ensures var ops := ShapeOps(kind, b, c, colour, thick);
      && (forall k :: 0 <= k < |ops| ==> ops[k].colour == colour && ops[k].thickness == thick)
      && (kind == RectangleShape ==>
            ops[0].Rectangle? && ops[0].corner == Corner(b, 0) && ops[0].opposite == Corner(b, 3))
      && (kind == CircleShape ==>
            ops[0].Circle? && ops[0].centre == c && 2 * ops[0].radius <= Max(b.w, b.h) <= 2 * ops[0].radius + 1)
      && (kind == Crosshair ==>
            var l := Min(b.w, b.h) / 3;
            && ops[0].Line? && ops[1].Line?
            && ops[0].from.y == ops[0].to.y == c.y && ops[0].from.x + ops[0].to.x == 2 * c.x
            && ops[0].to.x - ops[0].from.x == 2 * l
            && ops[1].from.x == ops[1].to.x == c.x && ops[1].from.y + ops[1].to.y == 2 * c.y
            && ops[1].to.y - ops[1].from.y == 2 * l
            && (b.w >= 0 && b.h >= 0 ==> 0 <= 3 * l <= Min(b.w, b.h)))
  {
  }

  /**
   * The L-frame is four right-angle brackets, two legs from each corner: a
   * horizontal one and a vertical one, each `min(w, h) // 4` long and, for a
   * box of non-negative size, ending inside the box.
   */
  lemma LFrameBrackets(b: Box, c: Point, colour: Bgr, thick: int)
    requires b.w >= 0 && b.h >= 0
    ensures var ops := ShapeOps(LFrame, b, c, colour, thick);
      var l := Min(b.w, b.h) / 4;
      && |ops| == 8 && l >= 0
      && forall j :: 0 <= j < 4 ==>
        && ops[2 * j].Line? && ops[2 * j + 1].Line?
        && ops[2 * j].from == Corner(b, j) && ops[2 * j + 1].from == Corner(b, j)
        && ops[2 * j].to.y == Corner(b, j).y
        && (ops[2 * j].to.x == Corner(b, j).x + l || ops[2 * j].to.x == Corner(b, j).x - l)
        && ops[2 * j + 1].to.x == Corner(b, j).x
        && (ops[2 * j + 1].to.y == Corner(b, j).y + l || ops[2 * j + 1].to.y == Corner(b, j).y - l)
        && Inside(b, ops[2 * j].to) && Inside(b, ops[2 * j + 1].to)
  {
    var ops := ShapeOps(LFrame, b, c, colour, thick);
    var l := Min(b.w, b.h) / 4;
    forall j | 0 <= j < 4
      ensures ops[2 * j] == BracketOps(b, j, l, colour, thick)[0]
      ensures ops[2 * j + 1] == BracketOps(b, j, l, colour, thick)[1]
    {
    }
  }
}
