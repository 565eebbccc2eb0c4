/**
 * The style settings of one run, built once before the frame loop and only
 * read inside it. The Streamlit app and the Flask server fill the same
 * record from differently named choices: each front end's recognised
 * strings are mapped here, and every unrecognised string means "draw nothing".
 */
module Config {
  import opened Wrappers
  import opened Decimal
  import opened Colour
  import opened Geometry
  import opened Labels
  import opened Connections

  /** Dynamic: draw on the region's own box. Fixed: on a square of the given side around its centre. */
  datatype Sizing = Dynamic | Fixed(size: int)

  datatype Settings = Settings(
    shape: ShapeKind,
    boxColour: Bgr,
    thickness: int,
    connection: ConnectionKind,
    connColour: Bgr,
    sizing: Sizing,
    maxBlobs: int,
    minArea: int,
    labelKind: LabelKind,
    textColour: Bgr)

  /** The shape names both front ends offer. */
  function ShapeFromName(name: string): (k: ShapeKind)
    ensures k == RectangleShape <==> name == "Basic Rectangle"
    ensures k == CircleShape <==> name == "Circle"
    ensures k == LFrame <==> name == "L-Frame"
    ensures k == Crosshair <==> name == "Crosshair"
  {
    if name == "Basic Rectangle" then RectangleShape
    else if name == "Circle" then CircleShape
    else if name == "L-Frame" then LFrame
    else if name == "Crosshair" then Crosshair
    else NoShape
  }

  /** The connection mode names both front ends offer. */
  function ConnectionFromName(name: string): (k: ConnectionKind)
    ensures k == Sequential <==> name == "Sequential (Line)"
    ensures k == Hub <==> name == "Central Hub"
  {
    if name == "Sequential (Line)" then Sequential
    else if name == "Central Hub" then Hub
    else NoConnection
  }

  /** The app's label choices: rank index or centre coordinates. */
  function AppLabelFromName(name: string): (k: LabelKind)
    ensures k == IndexLabel <==> name == "Tracking Index"
    ensures k == CoordinatesLabel <==> name == "X/Y Coordinates"
    ensures !k.CustomLabel?
  {
    if name == "Tracking Index" then IndexLabel
    else if name == "X/Y Coordinates" then CoordinatesLabel
    else NoLabel
  }

  /** The server's label choices: rank index or the request's custom text. */
  function ServerLabelFromName(name: string, customText: string): (k: LabelKind)
    ensures k == IndexLabel <==> name == "index"
    ensures k.CustomLabel? <==> name == "custom"
    ensures k.CustomLabel? ==> k.text == customText
    ensures !k.CoordinatesLabel?
  {
    if name == "index" then IndexLabel
    else if name == "custom" then CustomLabel(customText)
    else NoLabel
  }

  /** The app's sizing choice; the fixed side only matters in "Fixed Size" mode. */
  function AppSizing(mode: string, fixedSize: int): (z: Sizing)
    ensures z.Fixed? <==> mode == "Fixed Size"
    ensures z.Fixed? ==> z.size == fixedSize
  {
    if mode == "Fixed Size" then Fixed(fixedSize) else Dynamic
  }

  /**
   * The app's settings dictionary: the area threshold is the square of the
   * "ignore movement smaller than" side.
   */
  function AppSettings(
    shape: string, boxColour: string, strokeWidth: int, connection: string, connColour: string,
    sizeMode: string, fixedSize: int, maxBlobs: int, minBlobSize: int, labelType: string,
    textColour: string): (st: Settings)
    requires WellFormedHex(boxColour) && WellFormedHex(connColour) && WellFormedHex(textColour)
    ensures st.minArea == minBlobSize * minBlobSize && st.minArea >= 0
    ensures st.maxBlobs == maxBlobs && st.thickness == strokeWidth
    ensures st.boxColour == HexToBgr(boxColour) && st.connColour == HexToBgr(connColour)
    ensures st.textColour == HexToBgr(textColour)
    ensures InRange(st.boxColour) && InRange(st.connColour) && InRange(st.textColour)
    ensures st.shape == ShapeFromName(shape) && st.connection == ConnectionFromName(connection)
    ensures st.sizing == AppSizing(sizeMode, fixedSize)
    ensures st.sizing.Fixed? <==> sizeMode == "Fixed Size"
    ensures st.labelKind == AppLabelFromName(labelType) && !st.labelKind.CustomLabel?
  {
    Settings(
      ShapeFromName(shape), HexToBgr(boxColour), strokeWidth,
      ConnectionFromName(connection), HexToBgr(connColour),
      AppSizing(sizeMode, fixedSize), maxBlobs, minBlobSize * minBlobSize,
      AppLabelFromName(labelType), HexToBgr(textColour))
  }

  /**
   * The server's settings: stroke width, minimum side and maximum count
   * arrive as form text and go through `int()`, which fails (None here) on
   * anything but a decimal literal. The server never resizes boxes.
   */
  function ServerSettings(
    shape: string, boxColour: string, strokeWidth: string, connection: string, connColour: string,
    labelType: string, customText: string, textColour: string, maxBlobs: string,
    minSize: string): (r: Option<Settings>)
    requires WellFormedHex(boxColour) && WellFormedHex(connColour) && WellFormedHex(textColour)
    ensures r.Some? <==>
      ParseDecimal(strokeWidth).Some? && ParseDecimal(minSize).Some? && ParseDecimal(maxBlobs).Some?
    ensures r.Some? ==>
      && r.value.sizing == Dynamic
      && r.value.thickness == ParseDecimal(strokeWidth).value
      && r.value.minArea == ParseDecimal(minSize).value * ParseDecimal(minSize).value
      && r.value.minArea >= 0
      && r.value.maxBlobs == ParseDecimal(maxBlobs).value
      && r.value.boxColour == HexToBgr(boxColour)
      && r.value.connColour == HexToBgr(connColour)
      && r.value.textColour == HexToBgr(textColour)
      && r.value.shape == ShapeFromName(shape)
      && r.value.connection == ConnectionFromName(connection)
      && r.value.labelKind == ServerLabelFromName(labelType, customText)
      && !r.value.labelKind.CoordinatesLabel?
  {
    match (ParseDecimal(strokeWidth), ParseDecimal(minSize), ParseDecimal(maxBlobs))
    case (Some(thick), Some(side), Some(count)) =>
      Some(Settings(
        ShapeFromName(shape), HexToBgr(boxColour), thick,
        ConnectionFromName(connection), HexToBgr(connColour),
        Dynamic, count, side * side,
        ServerLabelFromName(labelType, customText), HexToBgr(textColour)))
    case _ => None
  }
}
