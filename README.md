# Blob annotation core, modelled in Dafny

The repository is a small "tracker studio": a Streamlit app (`app.py`) and a
Flask server (`server.py`) run a video through OpenCV background subtraction
and draw annotations on every frame around the moving regions found in it.
Both files carry an almost identical per-frame annotation loop and the same
`hex_to_bgr` colour helper. That loop is what this project models and proves.

For one frame, the loop:

1. keeps the regions whose contour area is strictly above `min_area`;
2. ranks them by area, largest first, with Python's stable `sorted(..., reverse=True)`,
   and keeps the first `max_blobs` (`[:max_blobs]`);
3. for each kept region, in rank order, computes its centre `(x + w // 2, y + h // 2)`
   from the raw bounding box, resizes the box to a square around that centre
   in the app's "Fixed Size" mode, draws the chosen shape (rectangle, circle,
   L-frame or crosshair), then draws the optional label at `(x, y - 10)`;
4. after all regions, joins the centres: a chain in rank order, or a filled
   radius-6 hub at the floor mean of the centres with a spoke to each centre.
   With fewer than two centres nothing is joined.

Every OpenCV drawing call (`cv2.rectangle`, `cv2.circle`, `cv2.line`,
`cv2.putText`) is modelled as appending a `DrawOp` value to the op log of a
`Frame` object, so the draw order is a checkable property.

Modules (one file each):

- `Wrappers`: `Option`.
- `Decimal`: Python's `str(int)` and `int(text)` on decimal text (labels, form fields).
- `Colour`: `hex_to_bgr`, with a formatter used to state its round trips.
- `Geometry`: points, boxes, `DrawOp`, centre, fixed-size box and the ops of each shape.
- `Labels`: label text and the label op.
- `Connections`: chain and hub ops.
- `Selection`: the area filter, the stable ranking and the Python slice.
- `Config`: the settings record. It maps the app's and the server's setting strings to one shared datatype.
- `Annotate`: the `Frame` class, the specification `FrameOps` of one frame, and the imperative loop proved to draw exactly `FrameOps`.
- `SelectionScenarios`, `Scenarios`: whole selections and frames computed by hand.

The two front ends share one core. The cases that exist in only one of them are:

- App only (`app.py`): "Fixed Size" sizing (`app.py:73-76`) and the "X/Y Coordinates" label (`app.py:103-104`). Its index label is called "Tracking Index" (`app.py:101`).
- Server only (`server.py`): the "custom" label (`server.py:86-87`). Its index label is called "index" (`server.py:84`). It never resizes. It turns its form fields into integers with `int()` (`server.py:31-33`).

`Config.AppSettings` and `Config.ServerSettings` build the shared settings from each front end's inputs.

Points worth knowing about the code's arithmetic and settings:

- The centre and all lengths use Python's floor division `//`, which rounds toward minus infinity, not toward zero; the two agree only for non-negative values. Dafny's `/` with a positive divisor is floor division, so it matches `//` exactly (all divisors here are 2, 3, 4 or a count of at least 2).
- A fixed-size box has side `2 * (fixed_size // 2)`, not `fixed_size`. An odd size loses one pixel.
- `max_blobs` is used as a Python slice bound. The server does not check it, so a negative value drops that many of the smallest regions instead of being rejected.
- Labels are always drawn with thickness 2, not the stroke width.
- The server has no background filter.

## Model

| member | source | states |
|---|---|---|
| Colour.HexToBgr | app.py:7-10 | After the leading `#`s, the first pair gives red, the second green and the third blue. Each is `16 * hi + lo` of its digits, and all three lie in [0, 255]. The result is returned as (B, G, R). |
| Colour.StripHashes | server.py:13 | `lstrip('#')` removes exactly the leading `#` characters. What remains is a suffix of the input that does not start with `#`. |
| Colour.FormatThenParse | server.py:12-15 | Every in-range colour written as `#RRGGBB` is well formed, and `hex_to_bgr` gives that colour back. |
| Colour.ParseThenFormat | app.py:7-10 | Parsing a well-formed colour and writing it out again gives its six digits in upper case. No digit is lost or reordered. |
| Decimal.ParseDecimal | server.py:31-33 | `int(text)` succeeds exactly on an optional sign followed by at least one digit. |
| Decimal.DecimalRoundTrip | app.py:102 | Reading back the decimal text `str(n)` gives `n` for every integer. |
| Config.ShapeFromName | app.py:79-94 | Each shape kind corresponds to exactly one shape name. Any other name draws no shape. |
| Config.ConnectionFromName | server.py:95-99 | "Sequential (Line)" and "Central Hub" select the chain and the hub. Any other name joins nothing. |
| Config.AppLabelFromName | app.py:100-104 | "Tracking Index" selects index labels and "X/Y Coordinates" selects coordinates. Anything else gives no label. The app has no custom label. |
| Config.ServerLabelFromName | server.py:83-87 | "index" selects index labels and "custom" selects the request's custom text. Anything else gives no label. The server has no coordinates label. |
| Config.AppSizing | app.py:74-75 | The box is resized only in "Fixed Size" mode, and then with the configured side. |
| Config.AppSettings | app.py:167-180 | `min_area` is the slider value squared, so it is never negative. The count and the stroke width are passed through. Each colour is `hex_to_bgr` of its picker, so in range. The shape, connection and label kinds are those their names select, sizing is Fixed exactly in "Fixed Size" mode, and there is never a custom label. |
| Config.ServerSettings | server.py:28-33 | The settings exist exactly when the stroke width, minimum size and count all parse as integers. `min_area` is then `int(min_size) ** 2`. Each colour is `hex_to_bgr` of its field, the shape and connection kinds are those their names select, and the label kind is the server's reading of `label_type` and `custom_text`. Boxes are never resized and there is no coordinates label. |
| Geometry.Centre | app.py:70 | The centre splits each side into two halves that differ by at most one pixel. |
| Geometry.FixedBox | app.py:73-76 | The fixed-size box is a square of side `size - size % 2`, i.e. `2 * (size // 2)`: exactly the configured size when it is even. Its own centre is the centre it was built around, so together the two clauses fix the box. |
| Geometry.ShapeOps | server.py:55-80 | A rectangle or circle is 1 op, an L-frame 8, a crosshair 2, and an unrecognised shape 0. |
| Geometry.ShapeOpsDrawTheShape | app.py:79-97 | All shape ops use the box colour and thickness. The rectangle spans the box corner to corner. The circle is centred on the centre with radius `max(w, h) // 2`. The crosshair has one horizontal and one vertical segment, both with midpoint at the centre and half-length `min(w, h) // 3`. |
| Geometry.LFrameBrackets | server.py:62-75 | The L-frame has two legs from each corner, one horizontal and one vertical. Each leg is `min(w, h) // 4` long and ends inside the box. |
| Labels.LabelOps | app.py:106-107 | There is one non-empty text op at `(x, y - 10)` in the text colour when the style produces text, and none otherwise. |
| Labels.IndexLabelNamesRank | app.py:101-102 | An index label is `#` followed by the decimal rank counted from one. |
| Labels.CoordinatesLabelNamesCentre | app.py:103-104 | A coordinates label reads back as the centre it was written from. |
| Labels.CustomLabelIgnoresRegion | server.py:86-87 | A non-empty custom label has the same text for every region, whatever its rank or position. |
| Connections.ConnectionOps | app.py:110 | With fewer than two centres, or no recognised mode, no connection op is drawn. |
| Connections.ConnectionOpsLayout | app.py:109-119 | The chain has n - 1 lines, and line i joins centre i to centre i + 1. The hub is one filled radius-6 circle at the floor mean, followed by one line from it to each centre in rank order. |
| Connections.SequentialLayout | server.py:95-97 | With two or more centres, the chain has exactly n - 1 lines, joining consecutive centres. |
| Connections.HubLayout | server.py:99-107 | With two or more centres, the hub is the marker followed by n spokes, one to each centre. |
| Connections.FloorMeanBetween | server.py:101-102 | The floor mean of a non-empty list lies between its least and its greatest element. |
| Connections.HubWithinCentres | app.py:115-116 | The hub point lies within the bounding range of the centres it joins, on both axes. |
| Selection.Passing | server.py:44 | Every kept region has area strictly above `min_area`. |
| Selection.PassingDrawnFromInput | app.py:57-61 | The filter keeps only regions of the input, each at most as often as it occurs there. |
| Selection.PassingWithArea | server.py:44 | For each area, the kept regions of that area are all of the input's regions of that area, in input order, when the area is above `min_area`, and none otherwise. |
| Selection.SortByArea | app.py:64 | The ranking is a permutation of its input, ordered by area, largest first. |
| Selection.SortKeepsAreaOrder | app.py:64 | The ranking is stable: regions of equal area keep their input order. |
| Selection.SortByAreaIsTheStableRanking | server.py:45 | Any stable largest-first ranking of the input, Python's `sorted` included, equals `SortByArea`. |
| Selection.PyTake | app.py:64 | `s[:n]` is a prefix of `s` of length `min(n, len)` for `n >= 0`, and `max(0, len + n)` for negative `n`. |
| Selection.SelectedAboveMinArea | app.py:57-61 | Every selected region's area is strictly above `min_area`. |
| Selection.SelectedNonIncreasing | server.py:45 | The selected areas are non-increasing. |
| Selection.SelectedCount | app.py:64 | The selection holds min(#passing, `max_blobs`) regions, or max(0, #passing + `max_blobs`) for a negative count. |
| Selection.SelectedKeepsEnumerationOrder | app.py:64 | For each area, the selected regions of that area are the first ones of the input's regions of that area, in input order. |
| Selection.SelectedDropsOnlySmaller | server.py:45 | The selection is drawn from the passing regions. No passing region left out is larger than any region kept. |
| Selection.FilterPassing | app.py:55-61 | The filtering loop appends exactly the passing regions, in input order. |
| Selection.SelectBlobs | server.py:44-45 | The selection step returns `Selected`: every region above `min_area`, areas non-increasing, at most `max_blobs` long. |
| Annotate.Frame.DrawRectangle | app.py:80 | `cv2.rectangle` appends one rectangle op to the frame's log. |
| Annotate.Frame.DrawCircle | app.py:83 | `cv2.circle` appends one circle op. |
| Annotate.Frame.DrawLine | app.py:86 | `cv2.line` appends one line op. |
| Annotate.Frame.PutText | app.py:107 | `cv2.putText` appends one text op. |
| Annotate.SlotBox | app.py:73-76 | The drawing box has the same centre as the raw box. It is the raw box in Dynamic mode, and in Fixed mode a square of side `size - size % 2`. |
| Annotate.Centres | app.py:66-71 | There is exactly one centre per selected region, in rank order. Each is computed from the unresized box. |
| Annotate.BlobDrawOrder | server.py:49-91 | A region's ops are its shape ops, drawn on the possibly resized box, followed by its label op at `(x, y - 10)` of that box. |
| Annotate.FrameLayout | app.py:68-119 | With n regions selected and k ops per region, region i's ops fill positions [i*k, i*k + k). The connection ops come after all of them. |
| Annotate.DrawShape | app.py:79-97 | The shape branch appends exactly `ShapeOps` of the box. |
| Annotate.DrawLabel | server.py:82-91 | The label branch appends exactly `LabelOps`: a text op only when the label string is not empty. |
| Annotate.DrawChain | app.py:111-113 | The sequential loop appends exactly the chain through the centres. |
| Annotate.DrawHub | app.py:114-119 | The hub branch appends the filled marker at the floor mean, then one spoke per centre in rank order. |
| Annotate.DrawConnections | server.py:93-107 | The connection step appends exactly `ConnectionOps` of the centres. |
| Annotate.DrawBlob | app.py:69-107 | The loop body takes the centre from the raw box, resizes in Fixed mode, then appends exactly `BlobOps` and returns the raw centre. |
| Annotate.DrawBlobs | server.py:49-91 | The region loop appends each region's ops in rank order and returns the centres. |
| Annotate.AnnotateFrame | app.py:55-119 | One frame receives exactly `FrameOps` of its regions. The returned centres are those of the selected regions. |
| Annotate.AnnotateFreshFrame | server.py:36-109 | A frame annotated from an empty log holds exactly `FrameOps`. |
| Annotate.AnnotateVideo | app.py:34-125 | The frame loop yields, frame by frame, `VideoOps` of the frames. |
| Annotate.VideoOpsPerFrame | server.py:35-109 | Frame k's ops depend only on frame k's regions. Nothing carries over between frames. |
| SelectionScenarios.SmallRegionDropped | app.py:57-64 | Areas 9000, 100 and 5000 with threshold 4096 and count 2 select the 9000 region, then the 5000 region. |
| Scenarios.SingleRegionGetsBoxAndIndex | app.py:55-119 | One region of area 10000 with rectangles and index labels gives exactly one rectangle and the text "#1", and no connector. |
| Scenarios.TwoRegionsOneLink | server.py:93-97 | Two regions in sequential mode give both rectangles, then exactly one line between their centres. |

## Left out

- Video input and output (`cv2.VideoCapture`, `VideoWriter`, `read`, `write`, `release`) is not modelled. It is I/O; the frame loop takes its frames as a sequence of region lists.
- Motion detection (MOG2 background subtraction, thresholding, `findContours`) is not modelled. It is a foreign library with hidden state across frames. Each frame's regions (bounding box and area) are an input.
- The app's background filters (invert, grayscale, blur, edge detection) are not modelled. They are whole-image library transforms, and blur works in floating point. They act before motion detection, so their only effect on the annotation is through the region list, which is the model's input.
- Pixel rasterisation is not modelled: fonts, font scale, stroke rendering and anti-aliasing. Draw calls are recorded as `DrawOp` values only.
- The app's progress bar is not modelled. It uses float division and a Streamlit call.
- The Streamlit UI, temp files and download button are not modelled. Neither are the Flask endpoint, CORS, file cleanup and the browser script. They are UI, network and filesystem code. Only the settings they build are modelled, in `Config`.
- Colour.HexToBgr: malformed colour strings raise in Python. They are excluded by the precondition. So are strings Python still accepts: fewer than six digits after the `#`s (for "#12345" the last pair is read as "5"), and pairs that `int(_, 16)` takes with a sign or surrounding whitespace.
- Decimal.ParseDecimal: models only plain signed decimal literals. Python's `int()` also accepts surrounding whitespace, underscores between digits and non-ASCII digits.
- Config.ServerSettings: a form field that is missing arrives as `None` and raises in `hex_to_bgr` or `int()`. The model takes every field as a string.
- Contour areas are modelled as exact reals. Float rounding inside `cv2.contourArea` is not modelled; area is only compared.
- `cv2` drawing of negative or huge coordinates is not modelled: coordinates are unbounded integers, with no clipping to the frame.
- OpenCV's own argument checks are not modelled: `cv2.line` requires a thickness between 1 and 32767, `cv2.rectangle` and `cv2.circle` a thickness of at most 32767, and `cv2.circle` a non-negative radius. A call that fails them raises. The server passes `int(stroke_width)` through unchecked, so for example a stroke width of 0 with L-frames, crosshairs or any connection raises in the source, where the model records the ops. The app's slider keeps the width in 1..10.
