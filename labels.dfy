/**
 * Text labels. A region gets at most one label, drawn with `cv2.putText`
 * ten pixels above the top-left corner of its (possibly resized) box.
 */
module Labels {
  import opened Wrappers
  import opened Decimal
  import opened Colour
  import opened Geometry

  /** Label styles of both front ends; `NoLabel` stands for any unrecognised style. */
  datatype LabelKind = NoLabel | IndexLabel | CoordinatesLabel | CustomLabel(text: string)

  /** The text stroke thickness, fixed at 2 in both front ends. */
  const TextThickness := 2

  /** The label string the loop builds for the region of rank `rank` whose centre is `c`; "" means none. */
  function LabelText(kind: LabelKind, rank: nat, c: Point): string {
    match kind
    case NoLabel => ""
    case IndexLabel => "#" + IntToDecimal(rank + 1)
    case CoordinatesLabel => IntToDecimal(c.x) + "," + IntToDecimal(c.y)
    case CustomLabel(text) => text
  }

  /** Whether a label style produces any text; a custom label only when its text is not empty. */
  predicate LabelEmits(kind: LabelKind) {
    match kind
    case NoLabel => false
    case CustomLabel(text) => text != ""
    case _ => true
  }

  /**
   * The ops for one region's label: none when the text is empty (Python's
   * `if label:`), else one text op anchored at `(x, y - 10)` of box `b`.
   */
  function LabelOps(kind: LabelKind, rank: nat, c: Point, b: Box, colour: Bgr): (ops: seq<DrawOp>)
    ensures |ops| == if LabelEmits(kind) then 1 else 0
    ensures forall k :: 0 <= k < |ops| ==>
      && ops[k].Text? && ops[k].text != ""
      && ops[k].origin == Point(b.x, b.y - 10)
      && ops[k].colour == colour
  {
    var text := LabelText(kind, rank, c);
    if text != "" then [Text(text, Point(b.x, b.y - 10), colour, TextThickness)] else []
  }

  /** The position of the first comma in `t`, or `|t|` when there is none. */
  function CommaIndex(t: string): (k: nat)
    ensures k <= |t|
    ensures forall i :: 0 <= i < k ==> t[i] != ','
    ensures k < |t| ==> t[k] == ','
  {
    if t == [] then 0
    else if t[0] == ',' then 0
    else 1 + CommaIndex(t[1..])
  }

  /** Reads a coordinates label back: two decimal integers separated by a comma. */
  function ParseCoordinates(t: string): Option<Point> {
    var k := CommaIndex(t);
    if k == |t| then None
    else match (ParseDecimal(t[..k]), ParseDecimal(t[k + 1..]))
      case (Some(x), Some(y)) => Some(Point(x, y))
      case _ => None
  }

  /** An index label is `#` followed by the rank counted from one. */
  lemma IndexLabelNamesRank(rank: nat, c: Point)
    ensures var t := LabelText(IndexLabel, rank, c);
      |t| >= 2 && t[0] == '#' && ParseDecimal(t[1..]) == Some(rank + 1)
  {
    var t := LabelText(IndexLabel, rank, c);
    assert t[1..] == IntToDecimal(rank + 1);
    DecimalRoundTrip(rank + 1);
  }

  /** A coordinates label determines the centre it was written from. */
  lemma CoordinatesLabelNamesCentre(rank: nat, c: Point)
    ensures ParseCoordinates(LabelText(CoordinatesLabel, rank, c)) == Some(c)
  {
    var a, b := IntToDecimal(c.x), IntToDecimal(c.y);
    var t := a + "," + b;
    assert t[|a|] == ',';
    assert forall i :: 0 <= i < |a| ==> t[i] == a[i];
    var k := CommaIndex(t);
    assert k == |a|;
    assert t[..k] == a;
    assert t[k + 1..] == b;
    DecimalRoundTrip(c.x);
    DecimalRoundTrip(c.y);
  }

  /** A custom label carries the same text for every region, whatever its rank and position. */
  lemma CustomLabelIgnoresRegion(text: string, rank1: nat, c1: Point, b1: Box, rank2: nat, c2: Point, b2: Box, colour: Bgr)
    requires text != ""
    ensures LabelOps(CustomLabel(text), rank1, c1, b1, colour)[0].text
         == LabelOps(CustomLabel(text), rank2, c2, b2, colour)[0].text
         == text
  {
  }
}
