# Lab1CPO paint editor — a Dafny model

Lab1CPO is a small WPF image editor. Its main window holds a tab control
of drawing canvases. Each canvas is a new blank white 800 x 600 canvas or
a transparent canvas laid over an opened image. This model covers the
event-driven logic of the editor; it leaves out the WPF toolkit:

- **The shape tool of a document control** (`DocumentControl`). A
  mouse-down starts a shape and adds it to the canvas at once: a polyline
  for the Pen tool, or an ellipse with a transparent fill for the Circle
  tool. Mouse-moves reshape that shape. The pen appends the point. The
  circle recomputes its box from the start point and the current point,
  using the minimum for Left/Top and the absolute difference for
  Width/Height. Mouse-up and mouse-leave let go of the shape but keep it.
  The `Color` setter also restyles the shape in progress. Saving picks an
  encoder from the file extension.
- **The main window** (`MainWindow`):
  - a freehand pen that chains `Line` elements from the last point;
  - the pen thickness, clamped to [1, 20];
  - opening, closing and selecting tabs, and the enabled state of the
    Save/Save As/Close commands;
  - the Save / Save As dispatch and its `.bmp`-or-JPEG encoder choice;
  - the Cascade and Tile arrangements of the tabs' scroll viewers.

Modules:

- `Common` (common.dfy): points, brushes, `Option`, the encoders, and
  the path helpers `Extension` (Path.GetExtension), `FileName`
  (Path.GetFileName) and `Lower` (string.ToLower).
- `Document` (document_control.dfy): the shape tool.
  - `DocState` is the abstract value of the control, and `AfterDown`,
    `AfterMove`, `AfterRelease`, `AfterColor`, `Step` and `Run` are its
    transitions.
  - The lemmas state what event sequences do to the canvas.
  - The class `DocumentControl` keeps the source's fields and mutable
    `Shape` objects. Each of its handlers is proved to move `State()`
    exactly as the matching transition function does.
- `Layout` (layout.dfy): the arithmetic of Cascade and Tile:
  - the ceiling square root and ceiling division;
  - the grid of rows x cols cells;
  - the tile of each tab, and the geometry lemmas: tiles lie inside the
    window and never overlap.
- `Window` (main_window.dfy): the pen's chain of lines (`Chain`,
  `AfterMoves`), `Clamp`, `ImageEncoder`, and the class `MainWindow`.
  - The class has the source's fields, plus `tabs` (the tab control's
    items), `selected` (its selected index), `commandsEnabled` (the
    IsEnabled flag shared by the six command controls) and `written` (the
    files SaveImage has written).
  - Its loops over the tabs (Cascade, Tile) are `while` loops over the
    tabs' `ScrollViewer` objects.

Dialog answers, the outcome of loading an image or writing a file, the parsed thickness
text, the tab the tab control selects after a close, and the window's
actual size are parameters of the methods that use them.

## Model

| member | source | states |
|---|---|---|
| Common.Extension | Lab1CPO/MainWindow.xaml.cs:211 | The extension is the text from the '.' that starts it: a '.' of the last path component, not the last character, with no '.' after it. Without such a '.' the extension is empty. |
| Common.ExtensionOfLower | Lab1CPO/DocumentControl.xaml.cs:59 | Lower-casing a path, then taking its extension, gives the same result as taking the extension, then lower-casing it. |
| Common.LowerIdempotent | Lab1CPO/DocumentControl.xaml.cs:59 | Lower-casing twice is lower-casing once. |
| Common.Lower | Lab1CPO/DocumentControl.xaml.cs:59 | The result has the length of the input. Each character is the input character, with an upper-case letter mapped to its lower case. |
| Common.FileName | Lab1CPO/MainWindow.xaml.cs:99 | The text after the last '\\' or '/' of the path, no longer than the path. |
| Common.FileNameIsLastComponent | Lab1CPO/MainWindow.xaml.cs:99 | The tab header of an opened file is a suffix of the path with no directory separator in it. It is either the whole path or preceded by a separator. |
| Document.BoundingBoxSpans | Lab1CPO/DocumentControl.xaml.cs:123-131 | The ellipse's box has each vertical edge through one of the two points (start, current), and each horizontal edge too. Its width and height are non-negative. |
| Document.BoundingBox | Lab1CPO/DocumentControl.xaml.cs:123-131 | The ellipse's box after a move: Left/Top are the minima of the two points' coordinates, Width/Height the absolute differences, never negative. |
| Document.AfterDown | Lab1CPO/DocumentControl.xaml.cs:74-109 | A mouse-down sets drawing, records the start point, and appends StartMark for the current tool, colour and width as the shape in progress. |
| Document.AfterMove | Lab1CPO/DocumentControl.xaml.cs:111-134 | With a shape in progress while drawing, a move replaces that last mark by its DragMark; otherwise the state is unchanged. |
| Document.AfterRelease | Lab1CPO/DocumentControl.xaml.cs:136-146 | Mouse-up and mouse-leave clear drawing and the shape in progress, and keep every mark. |
| Document.AfterColor | Lab1CPO/DocumentControl.xaml.cs:22-33 | The colour is stored, and the shape in progress, if any, gets it as its stroke. |
| Document.StartMark | Lab1CPO/DocumentControl.xaml.cs:79-102 | The shape a mouse-down creates is of the current tool's kind, with the current colour as its stroke and the line width as its thickness. |
| Document.DragMark | Lab1CPO/DocumentControl.xaml.cs:117-133 | A move keeps the shape's kind, stroke and thickness. |
| Document.Step | Lab1CPO/DocumentControl.xaml.cs:74-146 | Every event keeps the control consistent: a shape is in progress exactly while drawing, and only when the canvas holds a mark. |
| Document.PenStroke | Lab1CPO/DocumentControl.xaml.cs:81-120 | With the Pen tool, a mouse-down at p0 followed by moves to ps adds one polyline in progress. Its points are exactly p0 then ps, in order, with no deduplication. It has the current colour and width, and earlier marks are untouched. |
| Document.PenMoves | Lab1CPO/DocumentControl.xaml.cs:119-120 | Moves during a pen stroke append their points, in order, to the in-progress polyline and change nothing else. This holds whatever the polyline's stroke and thickness, including after LineWidth was set in the middle of the stroke. |
| Document.PenStep | Lab1CPO/DocumentControl.xaml.cs:119-120 | One move during a pen stroke appends its point to the in-progress polyline, whatever its style, and keeps that style. |
| Document.CircleStart | Lab1CPO/DocumentControl.xaml.cs:93-101 | With the Circle tool, a mouse-down adds an ellipse at the start point with no size set. Its stroke is the current colour, its thickness the line width, and its fill transparent. |
| Document.CircleDrag | Lab1CPO/DocumentControl.xaml.cs:123-131 | With the Circle tool, a mouse-down at the anchor followed by at least one move gives an ellipse in progress. Its Left/Top/Width/Height are the min/min/abs/abs box of the anchor and the last point. |
| Document.CircleMoves | Lab1CPO/DocumentControl.xaml.cs:123-131 | Each move of a circle drag recomputes the box from the start point alone. After several moves only the last point matters. |
| Document.IdleMoveIsNoop | Lab1CPO/DocumentControl.xaml.cs:113 | A move while not drawing, or with no shape in progress, changes nothing. |
| Document.MarksOnlyGrow | Lab1CPO/DocumentControl.xaml.cs:105-146 | Over any event sequence, the canvas grows by exactly one mark per mouse-down. The committed count never drops, and committed marks never change. |
| Document.StepKeepsCommitted | Lab1CPO/DocumentControl.xaml.cs:136-146 | One event adds one mark if it is a mouse-down and none otherwise. Mouse-up and mouse-leave remove nothing; every event leaves committed marks as they were. |
| Document.ColorChangeKeepsCommitted | Lab1CPO/DocumentControl.xaml.cs:22-33 | Setting the colour stores it and restyles the stroke of the shape in progress only. Committed marks keep their stroke. |
| Document.DownWhileDrawing | Lab1CPO/DocumentControl.xaml.cs:74-108 | A mouse-down while drawing starts a new shape at the new point. The previous one stays on the canvas, now committed. |
| Document.SaveEncoder | Lab1CPO/DocumentControl.xaml.cs:59-64 | The switch on the lower-cased extension: ".jpg" gives JPEG, ".bmp" gives BMP, anything else PNG. |
| Document.SaveEncoderCases | Lab1CPO/DocumentControl.xaml.cs:59-64 | For any name (empty, or ending in '.' or a separator, included) followed by an extension ext: JPEG iff ext folds to ".jpg", BMP iff it folds to ".bmp", PNG iff it folds to neither. |
| Document.SaveEncoderIgnoresCase | Lab1CPO/DocumentControl.xaml.cs:59-64 | Names that differ only in letter case get the same encoder. |
| Document.SaveEncoderNoExtension | Lab1CPO/DocumentControl.xaml.cs:63 | A name whose last component has no '.', or has one only as its last character, gets PNG. |
| Document.SaveEncoderUpperJpg | Lab1CPO/DocumentControl.xaml.cs:61 | "picture.JPG" gets JPEG. |
| Document.SaveEncoderMixedBmp | Lab1CPO/DocumentControl.xaml.cs:62 | "scan.Bmp" gets BMP. |
| Document.SaveEncoderJpegIsPng | Lab1CPO/DocumentControl.xaml.cs:63 | "photo.jpeg" gets PNG: only ".jpg" selects JPEG. |
| Document.MarksOfAt | Lab1CPO/DocumentControl.xaml.cs:107 | Position i of the canvas shows the current mark of shape object i. |
| Document.NewShape | Lab1CPO/DocumentControl.xaml.cs:79-102 | The new shape object is fresh and shows StartMark for the tool, colour, width and start point. |
| Document.DocumentControl.constructor | Lab1CPO/DocumentControl.xaml.cs:15-35 | A new control has the Pen tool, black colour, width 1, an empty canvas and nothing in progress. |
| Document.DocumentControl.SetColor | Lab1CPO/DocumentControl.xaml.cs:22-33 | The control's state after the setter is AfterColor of the state before. The set of shape objects is unchanged. |
| Document.DocumentControl.SetTool | Lab1CPO/DocumentControl.xaml.cs:19 | Only the tool changes; the children and the current shape are the same objects. |
| Document.DocumentControl.SetLineWidth | Lab1CPO/DocumentControl.xaml.cs:35 | Only the line width changes; the shape in progress keeps its thickness. |
| Document.DocumentControl.MouseDown | Lab1CPO/DocumentControl.xaml.cs:74-109 | The state becomes AfterDown of the old state, and the canvas's children gain one fresh shape object, which is the new current shape. |
| Document.DocumentControl.MouseMove | Lab1CPO/DocumentControl.xaml.cs:111-134 | The state becomes AfterMove of the old state. Only the current shape object is written, so older children keep their marks. |
| Document.DocumentControl.MouseUp | Lab1CPO/DocumentControl.xaml.cs:136-140 | The state becomes AfterRelease of the old state: not drawing, nothing in progress, the same children. |
| Document.DocumentControl.MouseLeave | Lab1CPO/DocumentControl.xaml.cs:142-146 | Same as MouseUp. |
| Layout.CascadeStrictlyIncreasing | Lab1CPO/MainWindow.xaml.cs:266-274 | A later tab sits at least 30 further right and 30 further down than an earlier one. |
| Layout.CascadeThreeTabs | Lab1CPO/MainWindow.xaml.cs:264-277 | Three tabs are cascaded to (0,0), (30,30), (60,60). |
| Layout.CeilSqrt | Lab1CPO/MainWindow.xaml.cs:283 | The row count: found by counting up from 0 to the first r with r * r >= n; at least 1 for n > 0. |
| Layout.CeilSqrtIsLeastRoot | Lab1CPO/MainWindow.xaml.cs:283 | rows = CeilSqrt(n) satisfies rows * rows >= n, and (rows - 1)^2 < n. |
| Layout.CeilSqrtFromIsLeastRoot | Lab1CPO/MainWindow.xaml.cs:283 | The upward search for the root, started below the root, ends at the least r with r * r >= n. |
| Layout.CeilSqrtLeast | Lab1CPO/MainWindow.xaml.cs:283 | No k with k * k >= n is below CeilSqrt(n). |
| Layout.CeilDiv | Lab1CPO/MainWindow.xaml.cs:284 | The column count: n / d, plus one when d does not divide n; at least 1 for n > 0. |
| Layout.CeilDivIsLeast | Lab1CPO/MainWindow.xaml.cs:284 | cols = CeilDiv(n, rows) satisfies cols * rows >= n, and (cols - 1) * rows < n. |
| Layout.Rows | Lab1CPO/MainWindow.xaml.cs:283 | At least one row for one or more tabs. |
| Layout.Cols | Lab1CPO/MainWindow.xaml.cs:284 | At least one column for one or more tabs. |
| Layout.GridCoversTabs | Lab1CPO/MainWindow.xaml.cs:283-284 | rows * cols >= n. |
| Layout.CellInGrid | Lab1CPO/MainWindow.xaml.cs:292-293 | Every index i < n gets row i / cols < rows and column i % cols < cols. |
| Layout.CellOf | Lab1CPO/MainWindow.xaml.cs:292-293 | Tab index goes to row index / cols and column index % cols. |
| Layout.CellsDistinct | Lab1CPO/MainWindow.xaml.cs:292-293 | Two indices get the same cell iff they are equal. |
| Layout.CellTaken | Lab1CPO/MainWindow.xaml.cs:292-293 | Cell (row, col) belongs to index row * cols + col. |
| Layout.FiveTabs | Lab1CPO/MainWindow.xaml.cs:281-293 | Five tabs give 3 rows and 2 columns, and index 4 goes to row 2, column 0. |
| Layout.TileOf | Lab1CPO/MainWindow.xaml.cs:283-296 | Tab index among n in a W x H window gets size (W / cols, H / rows) and corner (tileWidth * col, tileHeight * row) of its cell. |
| Layout.TilesUpToAt | Lab1CPO/MainWindow.xaml.cs:288-298 | The list of the tiles of the first k tabs holds tab i's tile at position i. |
| Layout.TileInsideWindow | Lab1CPO/MainWindow.xaml.cs:285-296 | In a window of non-negative size, every tab's tile lies inside the window. |
| Layout.TilesDisjoint | Lab1CPO/MainWindow.xaml.cs:285-296 | The tiles of two different tabs do not overlap. |
| Layout.CellTilesDisjoint | Lab1CPO/MainWindow.xaml.cs:294-296 | Distinct cells of one grid have tiles that do not overlap. |
| Layout.FiveTabsTile | Lab1CPO/MainWindow.xaml.cs:285-296 | Five tabs in a 1000 x 1000 window: the fifth tile is 500 x 1000/3 at (0, 2000/3). |
| Window.Chain | Lab1CPO/MainWindow.xaml.cs:142-158 | The lines a stroke pressed at `from` draws through its moves: one per point moved to. |
| Window.AfterMove | Lab1CPO/MainWindow.xaml.cs:142-158 | One move while drawing: the canvas gains the line from the last point to p in the given brush and thickness, and p becomes the last point. |
| Window.ChainAt | Lab1CPO/MainWindow.xaml.cs:147-157 | Line i of a stroke has the stroke's brush and thickness. It ends at the i-th point moved to and starts at the point before it; the first line starts at the mouse-down point. |
| Window.ChainConnected | Lab1CPO/MainWindow.xaml.cs:151-157 | Each line's (X2,Y2) is the next line's (X1,Y1). |
| Window.MovesDrawChain | Lab1CPO/MainWindow.xaml.cs:142-158 | A stroke's moves add exactly its chain of lines after the lines already on the canvas, and leave the last point at the last point moved to. |
| Window.Clamp | Lab1CPO/MainWindow.xaml.cs:244 | The result lies in [lo, hi]. It is the value itself when the value lies in that range, otherwise the nearer bound. |
| Window.ClampExamples | Lab1CPO/MainWindow.xaml.cs:244 | 0 becomes 1, 100 becomes 20, 7.5 stays 7.5. |
| Window.ImageEncoder | Lab1CPO/MainWindow.xaml.cs:211 | BMP when the lower-cased extension is ".bmp", JPEG otherwise. |
| Window.ImageEncoderCases | Lab1CPO/MainWindow.xaml.cs:211 | For any name (empty, or ending in '.' or a separator, included) followed by an extension ext: BMP iff ext folds to ".bmp", JPEG iff it does not, and never PNG. |
| Window.ImageEncoderIgnoresCase | Lab1CPO/MainWindow.xaml.cs:211 | Names that differ only in letter case get the same encoder. |
| Window.ImageEncoderPngIsJpeg | Lab1CPO/MainWindow.xaml.cs:211 | "photo.png" is written as JPEG. |
| Window.MainWindow.constructor | Lab1CPO/MainWindow.xaml.cs:16-31 | A new window is not drawing, with a black pen of thickness 2, no tabs, no current file and commands disabled. |
| Window.MainWindow.UpdateCommandsState | Lab1CPO/MainWindow.xaml.cs:347-356 | The commands are enabled iff there is a tab. The invariant Valid keeps this after every method. |
| Window.MainWindow.OpenNewCanvas | Lab1CPO/MainWindow.xaml.cs:54-79 | One tab is appended and selected: header "Новый холст", a fresh scroll viewer with default margin and size, and a fresh white 800 x 600 canvas with no lines. Earlier tabs, the pen and the current file are unchanged. |
| Window.MainWindow.OpenFile | Lab1CPO/MainWindow.xaml.cs:81-95 | A cancelled dialog or a failed load changes nothing. Otherwise the effect is OpenImageTab's. |
| Window.MainWindow.OpenImageTab | Lab1CPO/MainWindow.xaml.cs:97-130 | One tab is appended and selected, with the file name as its header and a fresh transparent canvas of the image's size. The path becomes the current file. |
| Window.MainWindow.CloseTab | Lab1CPO/MainWindow.xaml.cs:248-262 | With a tab selected, exactly that tab is removed and the others keep their order. With none selected nothing changes. The commands are enabled iff tabs remain. |
| Window.MainWindow.SelectionChanged | Lab1CPO/MainWindow.xaml.cs:324-327 | The selection is recorded; tabs, pen and files are unchanged. |
| Window.MainWindow.MouseDown | Lab1CPO/MainWindow.xaml.cs:132-140 | Drawing starts, and the point and the canvas are remembered. |
| Window.MainWindow.MouseMove | Lab1CPO/MainWindow.xaml.cs:142-158 | While drawing, the active canvas's lines and the last point move as AfterMove does: one line from the old last point to p, in the current brush and thickness. Otherwise the last point is unchanged. |
| Window.MainWindow.MouseUp | Lab1CPO/MainWindow.xaml.cs:161-165 | Drawing stops and the canvas is forgotten; the lines stay. |
| Window.MainWindow.ChangePenColor | Lab1CPO/MainWindow.xaml.cs:220-224 | Only the pen brush changes. |
| Window.MainWindow.ChangePenThickness | Lab1CPO/MainWindow.xaml.cs:240-246 | A parsed number sets the thickness to its clamp to [1, 20]; unparsable text leaves it as it was. The thickness always stays in [1, 20]. |
| Window.MainWindow.SaveImage | Lab1CPO/MainWindow.xaml.cs:203-218 | With a tab selected and a write that does not throw, one file is written: that tab, to the path, with ImageEncoder's choice. With no tab selected, or a failed write, nothing is recorded. |
| Window.MainWindow.SaveFileAs | Lab1CPO/MainWindow.xaml.cs:186-201 | A chosen path becomes the current file and is written. It stays current even when the write fails, and then nothing is recorded. A cancelled dialog changes neither the current file nor the files written. |
| Window.MainWindow.SaveFile | Lab1CPO/MainWindow.xaml.cs:167-184 | With no current file it behaves as Save As. Otherwise it writes the current file again and keeps it. A failed write records nothing. |
| Window.MainWindow.CascadeWindows | Lab1CPO/MainWindow.xaml.cs:264-277 | Tab i's scroll viewer gets margin CascadeMargin(i); sizes are unchanged. |
| Window.MainWindow.TileWindows | Lab1CPO/MainWindow.xaml.cs:279-300 | Tab i's scroll viewer gets the size (W/cols, H/rows) and the margin (tileWidth·col, tileHeight·row) of TileOf(i, n, W, H). With no tabs nothing changes. |

## Left out

- Rendering and encoding are not modelled. This covers RenderTargetBitmap, VisualBrush, GetDescendantBounds and Measure/Arrange, and the bytes an encoder writes. A save is modelled by which encoder it picks and, in the main window, by a `SavedFile` record of path, encoder and tab.
- File I/O is left out: File.Create, loading a BitmapImage, and the Open/Save dialogs. Dialog answers and the loaded image's size are method parameters. A load that throws, reported in a message box, is `loaded == None`. A write that throws is `writeOk == false` for SaveImage, SaveFileAs and SaveFile: nothing is recorded, and a file File.Create made before encoder.Save threw is not modelled.
- MessageBox error reporting, the keyboard shortcuts, the highlighting of the selected colour swatch, InitializeDefaultSelection, About and Exit are UI chrome. None of them changes the modelled state.
- MainWindow_SizeChanged is left out. It sets every tab canvas's Width and Height to its scroll viewer's actual size, which depends on WPF layout. Canvas.width and Canvas.height therefore hold the size given at creation only.
- Common.Lower: folds only the ASCII letters A-Z. string.ToLower also folds other Unicode letters, which cannot change whether an extension equals ".jpg" or ".bmp".
- Common.FileName: for a drive-relative path such as `C:foo`, Path.GetFileName drops the `C:` root and gives `foo`. The model keeps it, since only '\\' and '/' end a path component. Dialog paths are absolute, so they are not affected.
- Window.MainWindow.ChangePenColor: ColorConverter.ConvertFromString is not modelled. The brush the colour name denotes is the parameter, and a name it rejects (an exception) is not modelled.
- Window.MainWindow.ChangePenThickness: double.TryParse is a parameter. NaN and infinities are not modelled, since reals have none. A parsed "NaN" would pass through Math.Clamp unchanged and break the [1, 20] bound in the source; the model's invariant does not see that case.
- Coordinates and sizes are exact reals, not IEEE doubles. `Math.Ceiling(Math.Sqrt(n))` is the least r with r·r ≥ n, and `Math.Ceiling((double)n / rows)` is exact ceiling division; for the tab counts a window can hold, the double results agree.
- The `is ScrollViewer` tests of Cascade and Tile are not modelled as branches: every tab the window creates has a ScrollViewer as its content. Their `index` counter therefore equals the tab's position.
- Which tab the tab control selects after a close is WPF's decision. It is the `next` parameter of CloseTab.
- Document.DocumentControl.MouseMove: a tool change in the middle of a stroke makes the source's cast throw. The method requires the current tool to match the kind of the shape in progress, and AfterMove reshapes by the shape's own kind.
- The round joins and caps of a polyline are constants of every polyline, so they are not fields of Mark.
- The Tools enumeration is defined outside these two files and is not part of this model; Tool declares its two values Pen and Circle.
- ".jpeg": DocumentControl.SaveToFile maps it to PNG through the switch's default arm, and MainWindow.SaveImage maps every extension except ".bmp", ".jpeg" included, to JPEG. The model follows both.
