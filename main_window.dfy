/**
 * The main window: a tab control of drawing canvases, a freehand pen shared
 * by all of them, the Save / Save As commands, and the Cascade and Tile
 * arrangements of the tabs' scroll viewers.
 *
 * The pen draws by chaining straight Line elements: a mouse-down on a canvas
 * remembers the point and the canvas, every move while the button is down
 * adds one line from the remembered point to the new one and remembers the
 * new one, and mouse-up forgets the canvas. Chain and AfterMoves below are
 * the specification of that pen; MainWindow.MouseMove is proved against
 * AfterMove.
 */
module Window {
  import opened Common
  import opened Layout

  // ---------------------------------------------------------------------------
  // Lines and strokes

  /** A Line element: stroke brush and thickness, and its end points (X1,Y1) and (X2,Y2). */
  datatype Line = Line(stroke: Brush, thickness: real, x1: real, y1: real, x2: real, y2: real)

  function Segment(stroke: Brush, thickness: real, from: Point, to: Point): Line {
    Line(stroke, thickness, from.x, from.y, to.x, to.y)
  }

  /** The lines a pen stroke pressed at `from` leaves after moving through ps. */
  function Chain(stroke: Brush, thickness: real, from: Point, ps: seq<Point>): (ls: seq<Line>)
    ensures |ls| == |ps|
    decreases |ps|
  {
    if ps == [] then []
    else [Segment(stroke, thickness, from, ps[0])] + Chain(stroke, thickness, ps[0], ps[1..])
  }

  /**
   * One line per move: line i is drawn with the stroke's brush and
   * thickness, ends at the i-th point moved to, and starts at the point
   * before it (the first line at the mouse-down point `from`).
   */
  lemma {:induction false} ChainAt(stroke: Brush, thickness: real, from: Point, ps: seq<Point>, i: nat)
    requires i < |ps|
    ensures var l := Chain(stroke, thickness, from, ps)[i];
      var start := if i == 0 then from else ps[i - 1];
      l == Line(stroke, thickness, start.x, start.y, ps[i].x, ps[i].y)
    decreases i
  {
    if i > 0 {
      ChainAt(stroke, thickness, ps[0], ps[1..], i - 1);
    }
  }

  /** Consecutive lines of a stroke are joined: each one's (X2,Y2) is the next one's (X1,Y1). */
  lemma ChainConnected(stroke: Brush, thickness: real, from: Point, ps: seq<Point>, i: nat)
    requires i + 1 < |ps|
    ensures var ls := Chain(stroke, thickness, from, ps);
      ls[i].x2 == ls[i + 1].x1 && ls[i].y2 == ls[i + 1].y1
  {
    ChainAt(stroke, thickness, from, ps, i);
    ChainAt(stroke, thickness, from, ps, i + 1);
  }

  /** The pen's memory during a stroke: the last point, and the lines of the active canvas. */
  datatype Stroke = Stroke(last: Point, lines: seq<Line>)

  /** One Canvas_MouseMove to p while drawing, with the given brush and thickness. */
  function AfterMove(s: Stroke, stroke: Brush, thickness: real, p: Point): Stroke {
    Stroke(p, s.lines + [Segment(stroke, thickness, s.last, p)])
  }

  /** Moves to each point of ps in turn. */
  function AfterMoves(s: Stroke, stroke: Brush, thickness: real, ps: seq<Point>): Stroke
    decreases |ps|
  {
    if ps == [] then s else AfterMoves(AfterMove(s, stroke, thickness, ps[0]), stroke, thickness, ps[1..])
  }

  /**
   * A stroke's moves add exactly its chain of lines to the canvas, after
   * the lines already there, and leave the pen at the last point.
   */
  lemma {:induction false} MovesDrawChain(s: Stroke, stroke: Brush, thickness: real, ps: seq<Point>)
    ensures AfterMoves(s, stroke, thickness, ps) ==
      Stroke(if ps == [] then s.last else ps[|ps| - 1], s.lines + Chain(stroke, thickness, s.last, ps))
    decreases |ps|
  {
    if ps == [] {
      assert s.lines + [] == s.lines;
    } else {
      var seg := Segment(stroke, thickness, s.last, ps[0]);
      var rest := Chain(stroke, thickness, ps[0], ps[1..]);
      var s1 := AfterMove(s, stroke, thickness, ps[0]);
      MovesDrawChain(s1, stroke, thickness, ps[1..]);
      assert AfterMoves(s, stroke, thickness, ps) == AfterMoves(s1, stroke, thickness, ps[1..]);
      assert s1.lines + rest == s.lines + Chain(stroke, thickness, s.last, ps) by {
        assert Chain(stroke, thickness, s.last, ps) == [seg] + rest;
        assert (s.lines + [seg]) + rest == s.lines + ([seg] + rest);
      }
      assert (if ps[1..] == [] then s1.last else ps[1..][|ps[1..]| - 1]) == ps[|ps| - 1];
    }
  }

  // ---------------------------------------------------------------------------
  // Pen thickness

  const MIN_THICKNESS: real := 1.0
  const MAX_THICKNESS: real := 20.0

  /** Math.Clamp(value, lo, hi): value itself when it lies in [lo, hi], otherwise the nearer bound. */
  function Clamp(value: real, lo: real, hi: real): (r: real)
    requires lo <= hi
    ensures lo <= r <= hi
    ensures lo <= value <= hi ==> r == value
    ensures value < lo ==> r == lo
    ensures value > hi ==> r == hi
  {
    if value < lo then lo else if value > hi then hi else value
  }

  /** A width typed as 0 becomes 1, one typed as 100 becomes 20, and 7.5 stays 7.5. */
  lemma ClampExamples()
    ensures Clamp(0.0, MIN_THICKNESS, MAX_THICKNESS) == 1.0
    ensures Clamp(100.0, MIN_THICKNESS, MAX_THICKNESS) == 20.0
    ensures Clamp(7.5, MIN_THICKNESS, MAX_THICKNESS) == 7.5
  {
  }

  // ---------------------------------------------------------------------------
  // Saving

  /** SaveImage's encoder: BMP for a ".bmp" extension in any case, JPEG for anything else. */
  function ImageEncoder(filePath: string): Encoder {
    if Lower(Extension(filePath)) == ".bmp" then Bmp else Jpeg
  }

  /** Names that differ only in the case of their letters get one encoder. */
  lemma ImageEncoderIgnoresCase(a: string, b: string)
    requires Lower(a) == Lower(b)
    ensures ImageEncoder(a) == ImageEncoder(b)
  {
    ExtensionOfLower(a);
    ExtensionOfLower(b);
    LowerIdempotent(Extension(a));
    LowerIdempotent(Extension(b));
  }

  /**
   * For any name followed by an extension ext (even an empty name, or one
   * ending in '.' or a separator): BMP exactly when ext folds to
   * ".bmp", otherwise JPEG, so PNG is never chosen.
   */
  lemma ImageEncoderCases(name: string, ext: string)
    requires |ext| > 1 && ext[0] == '.' && forall k :: 0 < k < |ext| ==> ext[k] != '.' && !IsSeparator(ext[k])
    ensures ImageEncoder(name + ext) == Bmp <==> Lower(ext) == ".bmp"
    ensures ImageEncoder(name + ext) == Jpeg <==> Lower(ext) != ".bmp"
    ensures ImageEncoder(name + ext) != Png
  {
    assert ExtensionAt(name + ext, |name|);
    assert (name + ext)[|name|..] == ext;
  }

  /** "photo.png" is written as JPEG: the main window's save knows only BMP and JPEG. */
  lemma ImageEncoderPngIsJpeg()
    ensures ImageEncoder("photo.png") == Jpeg
  {
    assert Lower(".png")[1] == 'p';
    assert "photo" + ".png" == "photo.png";
    ImageEncoderCases("photo", ".png");
  }

  // ---------------------------------------------------------------------------
  // The window's elements

  /** The scroll viewer a tab shows; Cascade and Tile move and size it. None is the toolkit's "auto" size. */
  class ScrollViewer {
    var margin: Thickness
    var width: Option<real>
    var height: Option<real>

    constructor ()
      ensures margin == Thickness(0.0, 0.0, 0.0, 0.0) && width == None && height == None
    {
      margin := Thickness(0.0, 0.0, 0.0, 0.0);
      width := None;
      height := None;
    }
  }

  /** A drawing canvas; the pen appends lines to its children. */
  class Canvas {
    const background: Brush
    const width: real
    const height: real
    var children: seq<Line>

    constructor (background: Brush, width: real, height: real)
      ensures this.background == background && this.width == width && this.height == height
      ensures children == []
    {
      this.background := background;
      this.width := width;
      this.height := height;
      children := [];
    }
  }

  /** The size of a loaded image, in device-independent units. */
  datatype Size = Size(width: real, height: real)

  /**
   * A tab: its header, the scroll viewer that is its content, the canvas kept
   * in its Tag, and the size of the image under the canvas, if it has one.
   */
  datatype TabItem = TabItem(header: string, content: ScrollViewer, tag: Canvas, image: Option<Size>)

  /** One file SaveImage wrote: where, with which encoder, and which tab it rendered. */
  datatype SavedFile = SavedFile(path: string, encoder: Encoder, tab: TabItem)

  /** The viewer shows tile t: its margin puts it at the tile's corner and its size is the tile's. */
  predicate Placed(v: ScrollViewer, t: Tile)
    reads v
  {
    v.margin == Thickness(t.left, t.top, 0.0, 0.0) && v.width == Some(t.width) && v.height == Some(t.height)
  }

  const NEW_CANVAS_HEADER: string := "Новый холст"

  class MainWindow {
    var isDrawing: bool
    var lastPoint: Point
    var penBrush: Brush
    var penThickness: real
    var activeCanvas: Canvas?
    var currentFilePath: Option<string>
    /** ImageTabs.Items, in order. */
    var tabs: seq<TabItem>
    /** The position of ImageTabs.SelectedItem in tabs. */
    var selected: Option<nat>
    /** IsEnabled of the Save, Save As and Close menu items and buttons, which always agree. */
    var commandsEnabled: bool
    /** The files written so far, oldest first. */
    var written: seq<SavedFile>

    ghost predicate Valid()
      reads this
    {
      MIN_THICKNESS <= penThickness <= MAX_THICKNESS &&
      isDrawing == (activeCanvas != null) &&
      commandsEnabled == (|tabs| > 0) &&
      (selected.Some? ==> selected.value < |tabs|) &&
      forall i, j :: 0 <= i < j < |tabs| ==> tabs[i].content != tabs[j].content
    }

    /** The scroll viewers of all tabs. */
    ghost function Viewers(): set<ScrollViewer>
      reads this
    {
      set i | 0 <= i < |tabs| :: tabs[i].content
    }

    /** The pen: what a mouse event may read or change. */
    function PenState(): (bool, Point, Brush, real, Canvas?)
      reads this
    {
      (isDrawing, lastPoint, penBrush, penThickness, activeCanvas)
    }

    /** The documents: what the tab and save commands may read or change. */
    function Documents(): (seq<TabItem>, Option<nat>, bool, Option<string>, seq<SavedFile>)
      reads this
    {
      (tabs, selected, commandsEnabled, currentFilePath, written)
    }

    constructor ()
      ensures Valid()
      ensures !isDrawing && activeCanvas == null && penBrush == BLACK && penThickness == 2.0
      ensures tabs == [] && selected == None && !commandsEnabled && currentFilePath == None && written == []
    {
      isDrawing := false;
      lastPoint := Point(0.0, 0.0);
      penBrush := BLACK;
      penThickness := 2.0;
      activeCanvas := null;
      currentFilePath := None;
      tabs := [];
      selected := None;
      written := [];
      commandsEnabled := false;
      new;
      UpdateCommandsState();
    }

    /** UpdateCommandsState: the save and close commands are enabled exactly when a tab is open. */
    method UpdateCommandsState()
      modifies this`commandsEnabled
      ensures commandsEnabled == (|tabs| > 0)
    {
      var hasTabs := |tabs| > 0;
      commandsEnabled := hasTabs;
    }

    // -------------------------------------------------------------------------
    // Tabs

    /** OpenNewCanvas: a blank 800 x 600 white canvas in a new tab, which becomes the selected one. */
    method OpenNewCanvas()
      requires Valid()
      modifies this
      ensures Valid()
      ensures |tabs| == |old(tabs)| + 1 && tabs[..|old(tabs)|] == old(tabs)
      ensures var t := tabs[|old(tabs)|];
        t.header == NEW_CANVAS_HEADER && t.image == None &&
        fresh(t.content) && t.content.margin == Thickness(0.0, 0.0, 0.0, 0.0) &&
        t.content.width == None && t.content.height == None &&
        fresh(t.tag) && t.tag.background == WHITE && t.tag.width == 800.0 && t.tag.height == 600.0 &&
        t.tag.children == []
      ensures selected == Some(|old(tabs)|) && commandsEnabled
      ensures PenState() == old(PenState()) && currentFilePath == old(currentFilePath) && written == old(written)
    {
      var drawingCanvas := new Canvas(WHITE, 800.0, 600.0);
      var scrollViewer := new ScrollViewer();
      var tabItem := TabItem(NEW_CANVAS_HEADER, scrollViewer, drawingCanvas, None);
      tabs := tabs + [tabItem];
      selected := Some(|tabs| - 1);
      UpdateCommandsState();
    }

    /**
     * OpenFile_Click with the open dialog's answer and the outcome of loading
     * the chosen image. A cancelled dialog or an image that fails to load
     * (the exception is reported in a message box) changes nothing;
     * otherwise OpenImageTab adds a tab with a transparent canvas of the
     * image's size over the image, selects it, and makes its file the
     * current one.
     */
    method OpenFile(dialog: Option<string>, loaded: Option<Size>)
      requires Valid()
      modifies this
      ensures Valid()
      ensures PenState() == old(PenState()) && written == old(written)
      ensures dialog.None? || loaded.None? ==> Documents() == old(Documents())
      ensures dialog.Some? && loaded.Some? ==>
        |tabs| == |old(tabs)| + 1 && tabs[..|old(tabs)|] == old(tabs) &&
        selected == Some(|old(tabs)|) && commandsEnabled && currentFilePath == dialog &&
        var t := tabs[|old(tabs)|];
        t.header == FileName(dialog.value) && t.image == loaded &&
        fresh(t.content) && t.content.margin == Thickness(0.0, 0.0, 0.0, 0.0) &&
        t.content.width == None && t.content.height == None &&
        fresh(t.tag) && t.tag.background == Transparent &&
        t.tag.width == loaded.value.width && t.tag.height == loaded.value.height && t.tag.children == []
    {
      if dialog.Some? && loaded.Some? {
        OpenImageTab(dialog.value, loaded.value);
      }
    }

    method OpenImageTab(filePath: string, image: Size)
      requires Valid()
      modifies this
      ensures Valid()
      ensures PenState() == old(PenState()) && written == old(written)
      ensures |tabs| == |old(tabs)| + 1 && tabs[..|old(tabs)|] == old(tabs)
      ensures selected == Some(|old(tabs)|) && commandsEnabled && currentFilePath == Some(filePath)
      ensures var t := tabs[|old(tabs)|];
        t.header == FileName(filePath) && t.image == Some(image) &&
        fresh(t.content) && t.content.margin == Thickness(0.0, 0.0, 0.0, 0.0) &&
        t.content.width == None && t.content.height == None &&
        fresh(t.tag) && t.tag.background == Transparent &&
        t.tag.width == image.width && t.tag.height == image.height && t.tag.children == []
    {
      var header := FileName(filePath);
      var drawingCanvas := new Canvas(Transparent, image.width, image.height);
      var scrollViewer := new ScrollViewer();
      var tabItem := TabItem(header, scrollViewer, drawingCanvas, Some(image));
      tabs := tabs + [tabItem];
      selected := Some(|tabs| - 1);
      currentFilePath := Some(filePath);
      UpdateCommandsState();
    }

    /**
     * CloseTab_Click: removes the selected tab, if any. Which tab the tab
     * control selects afterwards is its own decision, passed in as next.
     */
    method CloseTab(next: Option<nat>)
      requires Valid()
      requires selected.Some? && next.Some? ==> next.value < |tabs| - 1
      modifies this
      ensures Valid()
      ensures PenState() == old(PenState()) && currentFilePath == old(currentFilePath) && written == old(written)
      ensures old(selected).None? ==> Documents() == old(Documents())
      ensures old(selected).Some? ==>
        var i := old(selected).value;
        tabs == old(tabs)[..i] + old(tabs)[i + 1..] && selected == next && commandsEnabled == (|tabs| > 0)
    {
      if selected.Some? {
        var i := selected.value;
        tabs := tabs[..i] + tabs[i + 1..];
        selected := next;
        UpdateCommandsState();
      }
    }

    /** ImageTabs_SelectionChanged after the tab control selected `selection`. */
    method SelectionChanged(selection: Option<nat>)
      requires Valid()
      requires selection.Some? ==> selection.value < |tabs|
      modifies this
      ensures Valid() && selected == selection
      ensures PenState() == old(PenState()) && tabs == old(tabs)
      ensures currentFilePath == old(currentFilePath) && written == old(written)
    {
      selected := selection;
      UpdateCommandsState();
    }

    // -------------------------------------------------------------------------
    // The pen

    /** Canvas_MouseDown on canvas at position p. */
    method MouseDown(canvas: Canvas, p: Point)
      requires Valid()
      modifies this
      ensures Valid()
      ensures isDrawing && lastPoint == p && activeCanvas == canvas
      ensures penBrush == old(penBrush) && penThickness == old(penThickness) && Documents() == old(Documents())
    {
      isDrawing := true;
      lastPoint := p;
      activeCanvas := canvas;
    }

    /**
     * Canvas_MouseMove to p (in the active canvas's coordinates). While
     * drawing, the active canvas gains the line from the last point to p in
     * the current brush and thickness, and p becomes the last point;
     * otherwise nothing changes, since no canvas is active.
     */
    method MouseMove(p: Point)
      requires Valid()
      modifies this, activeCanvas
      ensures Valid()
      ensures isDrawing == old(isDrawing) && activeCanvas == old(activeCanvas)
      ensures penBrush == old(penBrush) && penThickness == old(penThickness) && Documents() == old(Documents())
      ensures old(isDrawing) ==>
        Stroke(lastPoint, activeCanvas.children) ==
        AfterMove(Stroke(old(lastPoint), old(activeCanvas.children)), penBrush, penThickness, p)
      ensures !old(isDrawing) ==> lastPoint == old(lastPoint)
    {
      if isDrawing && activeCanvas != null {
        var currentPoint := p;
        var line := Line(penBrush, penThickness, lastPoint.x, lastPoint.y, currentPoint.x, currentPoint.y);
        activeCanvas.children := activeCanvas.children + [line];
        lastPoint := currentPoint;
      }
    }

    /** Canvas_MouseUp: the stroke ends; the lines it drew stay. */
    method MouseUp()
      requires Valid()
      modifies this
      ensures Valid()
      ensures !isDrawing && activeCanvas == null && lastPoint == old(lastPoint)
      ensures penBrush == old(penBrush) && penThickness == old(penThickness) && Documents() == old(Documents())
    {
      isDrawing := false;
      activeCanvas := null;
    }

    /** ChangePenColor_Click with the brush its button names. */
    method ChangePenColor(brush: Brush)
      requires Valid()
      modifies this
      ensures Valid() && penBrush == brush
      ensures isDrawing == old(isDrawing) && lastPoint == old(lastPoint) && activeCanvas == old(activeCanvas)
      ensures penThickness == old(penThickness) && Documents() == old(Documents())
    {
      penBrush := brush;
    }

    /**
     * ChangePenThickness_TextChanged with the result of parsing the text box:
     * a number is clamped to [1, 20]; text that is not a number leaves the
     * thickness as it was.
     */
    method ChangePenThickness(parsed: Option<real>)
      requires Valid()
      modifies this
      ensures Valid()
      ensures penThickness == if parsed.Some? then Clamp(parsed.value, MIN_THICKNESS, MAX_THICKNESS) else old(penThickness)
      ensures isDrawing == old(isDrawing) && lastPoint == old(lastPoint) && activeCanvas == old(activeCanvas)
      ensures penBrush == old(penBrush) && Documents() == old(Documents())
    {
      if parsed.Some? {
        var thickness := parsed.value;
        penThickness := Clamp(thickness, MIN_THICKNESS, MAX_THICKNESS);
      }
    }

    // -------------------------------------------------------------------------
    // Saving

    /**
     * SaveImage: renders the selected tab into filePath with the encoder its
     * extension picks; with no tab selected nothing is written. writeOk is
     * false when creating or encoding the file throws: then nothing is
     * recorded, and the exception goes to the click handler that called.
     */
    method SaveImage(filePath: string, writeOk: bool)
      requires Valid()
      modifies this`written
      ensures Valid()
      ensures written == old(written) +
        if selected.Some? && writeOk then [SavedFile(filePath, ImageEncoder(filePath), tabs[selected.value])] else []
    {
      if selected.Some? {
        var selectedTab := tabs[selected.value];
        var encoder := ImageEncoder(filePath);
        if writeOk {
          written := written + [SavedFile(filePath, encoder, selectedTab)];
        }
      }
    }

    /**
     * SaveFileAs_Click with the save dialog's answer: a chosen file becomes
     * the current file and is written; a cancelled dialog changes nothing.
     * The path becomes current before the write, so it stays current even
     * when the write fails (writeOk false) and nothing is recorded.
     */
    method SaveFileAs(dialog: Option<string>, writeOk: bool)
      requires Valid()
      modifies this
      ensures Valid()
      ensures PenState() == old(PenState()) && tabs == old(tabs) && selected == old(selected)
      ensures commandsEnabled == old(commandsEnabled)
      ensures dialog.None? ==> currentFilePath == old(currentFilePath) && written == old(written)
      ensures dialog.Some? ==> (
        currentFilePath == dialog &&
        written == old(written) +
          if selected.Some? && writeOk then [SavedFile(dialog.value, ImageEncoder(dialog.value), tabs[selected.value])] else [])
    {
      if dialog.Some? {
        currentFilePath := dialog;
        SaveImage(currentFilePath.value, writeOk);
      }
    }

    /**
     * SaveFile_Click: with no current file it is Save As (dialog is that
     * dialog's answer); otherwise the current file is written again and the
     * dialog is not shown. A failed write (writeOk false) records nothing.
     */
    method SaveFile(dialog: Option<string>, writeOk: bool)
      requires Valid()
      modifies this
      ensures Valid()
      ensures PenState() == old(PenState()) && tabs == old(tabs) && selected == old(selected)
      ensures commandsEnabled == old(commandsEnabled)
      ensures old(currentFilePath).None? ==> (
        currentFilePath == dialog &&
        written == old(written) +
          if dialog.Some? && selected.Some? && writeOk then [SavedFile(dialog.value, ImageEncoder(dialog.value), tabs[selected.value])] else [])
      ensures old(currentFilePath).Some? ==> (
        currentFilePath == old(currentFilePath) &&
        written == old(written) +
          if selected.Some? && writeOk then [SavedFile(currentFilePath.value, ImageEncoder(currentFilePath.value), tabs[selected.value])] else [])
    {
      if currentFilePath.None? {
        SaveFileAs(dialog, writeOk);
      } else {
        SaveImage(currentFilePath.value, writeOk);
      }
    }

    // -------------------------------------------------------------------------
    // Arrangement

    /**
     * CascadeWindows_Click: the i-th tab's scroll viewer gets the margin
     * (30 i, 30 i, 0, 0); sizes are left as they were. Every tab's content
     * is a scroll viewer, so the position among the tabs and the counter
     * agree.
     */
    method CascadeWindows()
      requires Valid()
      modifies Viewers()
      ensures Valid()
      ensures forall i :: 0 <= i < |tabs| ==> tabs[i].content.margin == CascadeMargin(i)
      ensures forall i :: 0 <= i < |tabs| ==>
        tabs[i].content.width == old(tabs[i].content.width) && tabs[i].content.height == old(tabs[i].content.height)
    {
      var offsetX, offsetY := CASCADE_STEP, CASCADE_STEP;
      var index := 0;
      while index < |tabs|
        invariant 0 <= index <= |tabs|
        invariant forall i :: 0 <= i < index ==> tabs[i].content.margin == CascadeMargin(i)
        invariant forall i :: 0 <= i < |tabs| ==>
          tabs[i].content.width == old(tabs[i].content.width) && tabs[i].content.height == old(tabs[i].content.height)
      {
        var scrollViewer := tabs[index].content;
        scrollViewer.margin := Thickness(offsetX * index as real, offsetY * index as real, 0.0, 0.0);
        index := index + 1;
      }
    }

    /**
     * TileWindows_Click in a window of the given actual size: with no tabs
     * nothing happens; otherwise tab i's scroll viewer gets the size and the
     * margin of tile i of the grid (see Layout.TileOf).
     */
    method TileWindows(actualWidth: real, actualHeight: real)
      requires Valid()
      modifies Viewers()
      ensures Valid()
      ensures forall i :: 0 <= i < |tabs| ==> Placed(tabs[i].content, TileOf(i, |tabs|, actualWidth, actualHeight))
    {
      var count := |tabs|;
      if count == 0 {
        return;
      }
      var rows := CeilSqrt(count);
      var cols := CeilDiv(count, rows);
      var tileWidth := actualWidth / cols as real;
      var tileHeight := actualHeight / rows as real;
      ghost var tiles := TilesUpTo(count, count, actualWidth, actualHeight);
      assert rows == Rows(count) && cols == Cols(count);
      var index := 0;
      while index < |tabs|
        invariant 0 <= index <= |tabs|
        invariant forall i :: 0 <= i < index ==> Placed(tabs[i].content, tiles[i])
      {
        var scrollViewer := tabs[index].content;
        var row := index / cols;
        var col := index % cols;
        var tile := CellTile(tileWidth, tileHeight, Cell(row, col));
        TilesUpToCell(count, actualWidth, actualHeight, rows, cols, index);
        scrollViewer.width := Some(tileWidth);
        scrollViewer.height := Some(tileHeight);
        scrollViewer.margin := Thickness(tile.left, tile.top, 0.0, 0.0);
        index := index + 1;
      }
      forall i | 0 <= i < |tabs| ensures Placed(tabs[i].content, TileOf(i, |tabs|, actualWidth, actualHeight)) {
        TilesUpToAt(count, count, actualWidth, actualHeight, i);
      }
    }
  }
}
