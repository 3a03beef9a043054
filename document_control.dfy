/**
 * The per-document shape tool: a user control holding a drawing canvas.
 * A mouse-down starts a shape (a polyline for the pen, an ellipse for the
 * circle tool) and puts it on the canvas at once; mouse-moves reshape that
 * in-progress shape; mouse-up and mouse-leave let go of it, leaving it on
 * the canvas.
 *
 * The shape objects are modelled by class Shape; the control by class
 * DocumentControl. DocState is the abstract value of a control, and the
 * functions over it (AfterDown, AfterMove, AfterRelease, AfterColor, ...) are what
 * the control's methods are proved against; the lemmas at the end are about
 * those functions.
 */
module Document {
  import opened Common

  datatype Tool = Pen | Circle

  /** The left, top, width and height of the box an ellipse is drawn in. */
  datatype Box = Box(left: real, top: real, width: real, height: real)

  /** The box of an ellipse dragged from `anchor` to `current` (BoundingBoxSpans). */
  function BoundingBox(anchor: Point, current: Point): (b: Box)
    ensures b.width >= 0.0 && b.height >= 0.0
  {
    Box(Min(anchor.x, current.x), Min(anchor.y, current.y),
        Abs(current.x - anchor.x), Abs(current.y - anchor.y))
  }

  /**
   * The box spanned by the anchor of a drag and its current point: each of
   * its two vertical edges passes through one of the points, and so does
   * each horizontal edge.
   */
  lemma BoundingBoxSpans(anchor: Point, current: Point)
    ensures var b := BoundingBox(anchor, current);
      b.left <= anchor.x <= b.left + b.width && b.left <= current.x <= b.left + b.width &&
      b.top <= anchor.y <= b.top + b.height && b.top <= current.y <= b.top + b.height &&
      ((b.left == anchor.x && b.left + b.width == current.x) || (b.left == current.x && b.left + b.width == anchor.x)) &&
      ((b.top == anchor.y && b.top + b.height == current.y) || (b.top == current.y && b.top + b.height == anchor.y))
  {
  }

  /**
   * What one shape on the canvas shows. A polyline is always drawn with
   * round joins and round caps at both ends, so it carries no field for
   * them. An ellipse has a transparent fill; its left and top are the
   * Canvas.Left/Top it is placed at, and its width and height are None
   * while they have never been set (the toolkit's "auto").
   */
  datatype Mark =
    | Polyline(stroke: Brush, thickness: real, points: seq<Point>)
    | Ellipse(stroke: Brush, thickness: real, fill: Brush,
              left: real, top: real, width: Option<real>, height: Option<real>)

  /** The tool whose shape this is. */
  function KindOf(m: Mark): Tool {
    if m.Polyline? then Pen else Circle
  }

  /** The shape a mouse-down at p creates with the given tool and style. */
  function StartMark(tool: Tool, color: Brush, lineWidth: real, p: Point): (m: Mark)
    ensures KindOf(m) == tool && m.stroke == color && m.thickness == lineWidth
  {
    match tool
    case Pen => Polyline(color, lineWidth, [p])
    case Circle => Ellipse(color, lineWidth, Transparent, p.x, p.y, None, None)
  }

  /** The shape after a move to `current` during a drag anchored at `anchor`. */
  function DragMark(m: Mark, anchor: Point, current: Point): (m': Mark)
    ensures KindOf(m') == KindOf(m) && m'.stroke == m.stroke && m'.thickness == m.thickness
  {
    match m
    case Polyline(_, _, pts) => m.(points := pts + [current])
    case Ellipse(_, _, _, _, _, _, _) =>
      var b := BoundingBox(anchor, current);
      m.(left := b.left, top := b.top, width := Some(b.width), height := Some(b.height))
  }

  /**
   * The abstract value of a document control. `marks` are the shapes on the
   * canvas, oldest first; when `inProgress` holds the last of them is the
   * shape the control is still shaping (the `currentShape` reference), and
   * all others are committed.
   */
  datatype DocState = DocState(
    tool: Tool, color: Brush, lineWidth: real,
    isDrawing: bool, start: Point,
    marks: seq<Mark>, inProgress: bool)

  /** The invariant every reachable state keeps. */
  predicate Consistent(s: DocState) {
    (s.inProgress ==> |s.marks| > 0) && s.isDrawing == s.inProgress
  }

  /** How many marks are committed, that is, no longer reshaped by any event. */
  function Committed(s: DocState): (n: nat)
    requires Consistent(s)
    ensures n <= |s.marks|
    ensures n == |s.marks| <==> !s.inProgress
  {
    if s.inProgress then |s.marks| - 1 else |s.marks|
  }

  const INITIAL: DocState := DocState(Pen, BLACK, 1.0, false, Point(0.0, 0.0), [], false)

  function AfterDown(s: DocState, p: Point): DocState {
    s.(isDrawing := true, start := p,
       marks := s.marks + [StartMark(s.tool, s.color, s.lineWidth, p)],
       inProgress := true)
  }

  /**
   * A move reshapes the in-progress mark by its own kind; the control's
   * method requires the tool to be that kind, as the source's casts do.
   */
  function AfterMove(s: DocState, p: Point): DocState
    requires Consistent(s)
  {
    if !s.isDrawing || !s.inProgress then s
    else
      var last := |s.marks| - 1;
      s.(marks := s.marks[last := DragMark(s.marks[last], s.start, p)])
  }

  /** Mouse-up and mouse-leave: stop drawing, and forget the in-progress shape. */
  function AfterRelease(s: DocState): DocState {
    s.(isDrawing := false, inProgress := false)
  }

  /** The Color setter: the colour of later shapes, and the stroke of the in-progress one. */
  function AfterColor(s: DocState, c: Brush): DocState
    requires Consistent(s)
  {
    if s.inProgress then
      var last := |s.marks| - 1;
      s.(color := c, marks := s.marks[last := s.marks[last].(stroke := c)])
    else s.(color := c)
  }

  // ---------------------------------------------------------------------------
  // Event sequences

  datatype Event =
    | Down(p: Point) | Move(p: Point) | Up | Leave
    | SetColor(c: Brush) | SetTool(t: Tool) | SetLineWidth(w: real)

  function Step(s: DocState, e: Event): (s': DocState)
    requires Consistent(s)
    ensures Consistent(s')
  {
    match e
    case Down(p) => AfterDown(s, p)
    case Move(p) => AfterMove(s, p)
    case Up => AfterRelease(s)
    case Leave => AfterRelease(s)
    case SetColor(c) => AfterColor(s, c)
    case SetTool(t) => s.(tool := t)
    case SetLineWidth(w) => s.(lineWidth := w)
  }

  function Run(s: DocState, events: seq<Event>): (s': DocState)
    requires Consistent(s)
    ensures Consistent(s')
    decreases |events|
  {
    if events == [] then s else Run(Step(s, events[0]), events[1..])
  }

  function Moves(ps: seq<Point>): (events: seq<Event>)
    ensures |events| == |ps|
  {
    if ps == [] then [] else [Move(ps[0])] + Moves(ps[1..])
  }

  function CountDowns(events: seq<Event>): nat {
    if events == [] then 0 else (if events[0].Down? then 1 else 0) + CountDowns(events[1..])
  }

  // ---------------------------------------------------------------------------
  // Properties of the tool

  /**
   * A pen stroke: mouse-down at p0, then moves to ps, leaves one new
   * polyline on the canvas, in progress, whose points are exactly p0
   * followed by ps in the order received, drawn in the current colour and
   * width; the shapes that were there before are untouched.
   */
  lemma PenStroke(s: DocState, p0: Point, ps: seq<Point>)
    requires Consistent(s) && s.tool == Pen
    ensures Run(s, [Down(p0)] + Moves(ps)) ==
      s.(isDrawing := true, start := p0, inProgress := true,
         marks := s.marks + [Polyline(s.color, s.lineWidth, [p0] + ps)])
  {
    RunDownMoves(s, p0, ps);
    PenMoves(AfterDown(s, p0), s.color, s.lineWidth, [p0], ps);
  }

  /**
   * Moves during a pen stroke append their points, in order, to the
   * in-progress polyline, whatever its style: a LineWidth or tool set in
   * the middle of the stroke does not restyle it.
   */
  lemma {:induction false} PenMoves(s: DocState, stroke: Brush, thickness: real, pts: seq<Point>, ps: seq<Point>)
    requires Consistent(s) && s.inProgress && s.marks[|s.marks| - 1] == Polyline(stroke, thickness, pts)
    ensures Run(s, Moves(ps)) == Reshaped(s, Polyline(stroke, thickness, pts + ps))
    decreases |ps|
  {
    if ps == [] {
      assert pts + ps == pts;
      assert s.marks[|s.marks| - 1 := Polyline(stroke, thickness, pts)] == s.marks;
    } else {
      var s1 := Reshaped(s, Polyline(stroke, thickness, pts + [ps[0]]));
      PenStep(s, stroke, thickness, pts, ps[0]);
      RunMoves(s, ps);
      PenMoves(s1, stroke, thickness, pts + [ps[0]], ps[1..]);
      assert pts + [ps[0]] + ps[1..] == pts + ps;
      ReshapedTwice(s, Polyline(stroke, thickness, pts + [ps[0]]), Polyline(stroke, thickness, pts + ps));
    }
  }

  /** One move during a pen stroke appends the point to the in-progress polyline, keeping its style. */
  lemma PenStep(s: DocState, stroke: Brush, thickness: real, pts: seq<Point>, p: Point)
    requires Consistent(s) && s.inProgress && s.marks[|s.marks| - 1] == Polyline(stroke, thickness, pts)
    ensures AfterMove(s, p) == Reshaped(s, Polyline(stroke, thickness, pts + [p]))
  {
  }

  /** The state with its last mark replaced by m. */
  function Reshaped(s: DocState, m: Mark): (t: DocState)
    requires |s.marks| > 0
    ensures |t.marks| == |s.marks| && t.marks[|t.marks| - 1] == m
  {
    s.(marks := s.marks[|s.marks| - 1 := m])
  }

  lemma ReshapedTwice(s: DocState, m1: Mark, m2: Mark)
    requires |s.marks| > 0
    ensures Reshaped(Reshaped(s, m1), m2) == Reshaped(s, m2)
  {
    assert Reshaped(Reshaped(s, m1), m2).marks == Reshaped(s, m2).marks;
  }

  /** A mouse-down followed by moves is AfterDown, then the moves. */
  lemma RunDownMoves(s: DocState, p: Point, ps: seq<Point>)
    requires Consistent(s)
    ensures Run(s, [Down(p)] + Moves(ps)) == Run(AfterDown(s, p), Moves(ps))
  {
    assert ([Down(p)] + Moves(ps))[1..] == Moves(ps);
  }

  /** The first of a run of moves is one AfterMove. */
  lemma RunMoves(s: DocState, ps: seq<Point>)
    requires Consistent(s) && ps != []
    ensures Run(s, Moves(ps)) == Run(AfterMove(s, ps[0]), Moves(ps[1..]))
  {
    assert Moves(ps)[0] == Move(ps[0]) && Moves(ps)[1..] == Moves(ps[1..]);
  }

  /**
   * A circle drag: mouse-down at the anchor, then at least one move, leaves
   * one new ellipse in progress whose box spans the anchor and the last
   * point moved to, with the current colour and width and a transparent
   * fill.
   */
  lemma CircleDrag(s: DocState, anchor: Point, ps: seq<Point>)
    requires Consistent(s) && s.tool == Circle && |ps| > 0
    ensures var b := BoundingBox(anchor, ps[|ps| - 1]);
      Run(s, [Down(anchor)] + Moves(ps)) ==
      s.(isDrawing := true, start := anchor, inProgress := true,
         marks := s.marks + [Ellipse(s.color, s.lineWidth, Transparent, b.left, b.top, Some(b.width), Some(b.height))])
  {
    RunDownMoves(s, anchor, ps);
    CircleMoves(AfterDown(s, anchor), ps);
  }

  lemma {:induction false} CircleMoves(s: DocState, ps: seq<Point>)
    requires Consistent(s) && s.inProgress && s.marks[|s.marks| - 1].Ellipse? && |ps| > 0
    ensures var b := BoundingBox(s.start, ps[|ps| - 1]);
      Run(s, Moves(ps)) ==
      s.(marks := s.marks[|s.marks| - 1 := s.marks[|s.marks| - 1].(left := b.left, top := b.top, width := Some(b.width), height := Some(b.height))])
    decreases |ps|
  {
    var s1 := AfterMove(s, ps[0]);
    RunMoves(s, ps);
    if |ps| > 1 {
      CircleMoves(s1, ps[1..]);
    }
  }

  /** A mouse-down before a circle drag moves places the ellipse at the anchor, at no set size. */
  lemma CircleStart(s: DocState, anchor: Point)
    requires s.tool == Circle
    ensures var m := AfterDown(s, anchor).marks[|s.marks|];
      m.Ellipse? && m.left == anchor.x && m.top == anchor.y && m.width == None && m.height == None &&
      m.stroke == s.color && m.thickness == s.lineWidth && m.fill == Transparent
  {
  }

  /** A move with nothing in progress changes nothing. */
  lemma IdleMoveIsNoop(s: DocState, p: Point)
    requires Consistent(s) && (!s.isDrawing || !s.inProgress)
    ensures AfterMove(s, p) == s
  {
  }

  /**
   * Over any sequence of events, the canvas only grows, by exactly one
   * shape per mouse-down, and a committed shape never changes again.
   */
  lemma {:induction false} MarksOnlyGrow(s: DocState, events: seq<Event>)
    requires Consistent(s)
    ensures var t := Run(s, events);
      |t.marks| == |s.marks| + CountDowns(events) &&
      Committed(t) >= Committed(s) &&
      t.marks[..Committed(s)] == s.marks[..Committed(s)]
    decreases |events|
  {
    if events != [] {
      var s1 := Step(s, events[0]);
      StepKeepsCommitted(s, events[0]);
      MarksOnlyGrow(s1, events[1..]);
      var t := Run(s, events);
      assert t.marks[..Committed(s)] == t.marks[..Committed(s1)][..Committed(s)];
      assert s1.marks[..Committed(s1)][..Committed(s)] == s1.marks[..Committed(s)];
    }
  }

  lemma StepKeepsCommitted(s: DocState, e: Event)
    requires Consistent(s)
    ensures var t := Step(s, e);
      |t.marks| == |s.marks| + (if e.Down? then 1 else 0) &&
      Committed(t) >= Committed(s) &&
      t.marks[..Committed(s)] == s.marks[..Committed(s)]
  {
  }

  /** Changing the colour restyles only the shape in progress; committed shapes keep their stroke. */
  lemma ColorChangeKeepsCommitted(s: DocState, c: Brush)
    requires Consistent(s)
    ensures var t := AfterColor(s, c);
      t.color == c && t.marks[..Committed(s)] == s.marks[..Committed(s)] &&
      |t.marks| == |s.marks| &&
      (s.inProgress ==> t.marks[|t.marks| - 1] == s.marks[|s.marks| - 1].(stroke := c))
  {
  }

  /**
   * A mouse-down while already drawing is not ignored: a new shape starts
   * at the new point, and the previous one stays on the canvas, now
   * committed.
   */
  lemma DownWhileDrawing(s: DocState, p: Point)
    requires Consistent(s) && s.isDrawing
    ensures var t := AfterDown(s, p);
      t.start == p && t.inProgress && |t.marks| == |s.marks| + 1 &&
      Committed(t) == |s.marks| && t.marks[..|s.marks|] == s.marks
  {
  }

  // ---------------------------------------------------------------------------
  // Encoder of SaveToFile

  /** SaveToFile's switch on the lower-cased extension. */
  function SaveEncoder(fileName: string): Encoder {
    var ext := Lower(Extension(fileName));
    if ext == ".jpg" then Jpeg
    else if ext == ".bmp" then Bmp
    else Png
  }

  /** The choice ignores case: names that differ only in the case of their letters get one encoder. */
  lemma SaveEncoderIgnoresCase(a: string, b: string)
    requires Lower(a) == Lower(b)
    ensures SaveEncoder(a) == SaveEncoder(b)
  {
    ExtensionOfLower(a);
    ExtensionOfLower(b);
    LowerIdempotent(Extension(a));
    LowerIdempotent(Extension(b));
  }

  /**
   * For any name followed by an extension ext, the encoder is JPEG exactly
   * for a ".jpg" extension and BMP exactly for ".bmp" (in any case);
   * every other extension, ".jpeg" included, is PNG.
   */
  lemma SaveEncoderCases(name: string, ext: string)
    requires |ext| > 1 && ext[0] == '.' && forall k :: 0 < k < |ext| ==> ext[k] != '.' && !IsSeparator(ext[k])
    ensures SaveEncoder(name + ext) == Jpeg <==> Lower(ext) == ".jpg"
    ensures SaveEncoder(name + ext) == Bmp <==> Lower(ext) == ".bmp"
    ensures SaveEncoder(name + ext) == Png <==> Lower(ext) != ".jpg" && Lower(ext) != ".bmp"
  {
    assert ExtensionAt(name + ext, |name|);
    assert (name + ext)[|name|..] == ext;
  }

  /**
   * A name whose last component has no '.', or has one only as its last
   * character, has no extension and gets PNG.
   */
  lemma SaveEncoderNoExtension(name: string)
    requires forall k :: 0 <= k < |name| && name[k] == '.' ==>
      k == |name| - 1 || exists j :: k < j < |name| && IsSeparator(name[j])
    ensures SaveEncoder(name) == Png
  {
  }

  /** "picture.JPG" is written as JPEG. */
  lemma SaveEncoderUpperJpg()
    ensures SaveEncoder("picture.JPG") == Jpeg
  {
    assert Lower(".JPG") == ".jpg" by {
      assert Lower(".JPG")[1] == 'j';
    }
    assert "picture" + ".JPG" == "picture.JPG";
    SaveEncoderCases("picture", ".JPG");
  }

  /** "scan.Bmp" is written as BMP. */
  lemma SaveEncoderMixedBmp()
    ensures SaveEncoder("scan.Bmp") == Bmp
  {
    assert Lower(".Bmp") == ".bmp" by {
      assert Lower(".Bmp")[1] == 'b';
    }
    assert "scan" + ".Bmp" == "scan.Bmp";
    SaveEncoderCases("scan", ".Bmp");
  }

  /** "photo.jpeg" is written as PNG: only the three-letter ".jpg" selects JPEG. */
  lemma SaveEncoderJpegIsPng()
    ensures SaveEncoder("photo.jpeg") == Png
  {
    assert |Lower(".jpeg")| == 5;
    assert "photo" + ".jpeg" == "photo.jpeg";
    SaveEncoderCases("photo", ".jpeg");
  }

  // ---------------------------------------------------------------------------
  // The control

  /** A shape object on the canvas; the control reshapes it in place while it is in progress. */
  class Shape {
    var mark: Mark

    constructor (m: Mark)
      ensures mark == m
    {
      mark := m;
    }
  }

  /** The marks the shape objects cs show, in order. */
  function MarksOf(cs: seq<Shape>): (ms: seq<Mark>)
    reads cs
    ensures |ms| == |cs|
  {
    if cs == [] then [] else MarksOf(cs[..|cs| - 1]) + [cs[|cs| - 1].mark]
  }

  /** Position i of the canvas shows the mark of child i. */
  lemma {:induction false} MarksOfAt(cs: seq<Shape>, i: nat)
    requires i < |cs|
    ensures MarksOf(cs)[i] == cs[i].mark
    decreases |cs|
  {
    if i < |cs| - 1 {
      MarksOfAt(cs[..|cs| - 1], i);
    }
  }

  /** The shape object the switch in DrawingCanvas_MouseDown creates. */
  method NewShape(tool: Tool, color: Brush, lineWidth: real, startPoint: Point) returns (shape: Shape)
    ensures fresh(shape) && shape.mark == StartMark(tool, color, lineWidth, startPoint)
  {
    match tool {
      case Pen =>
        shape := new Shape(Polyline(color, lineWidth, []));
        shape.mark := shape.mark.(points := shape.mark.points + [startPoint]);
      case Circle =>
        shape := new Shape(Ellipse(color, lineWidth, Transparent, 0.0, 0.0, None, None));
        shape.mark := shape.mark.(left := startPoint.x);
        shape.mark := shape.mark.(top := startPoint.y);
    }
  }

  lemma MarksOfSnoc(cs: seq<Shape>, c: Shape)
    ensures MarksOf(cs + [c]) == MarksOf(cs) + [c.mark]
  {
    assert (cs + [c])[..|cs|] == cs;
  }

  class DocumentControl {
    var startPoint: Point
    var currentShape: Shape?
    var isDrawing: bool
    var currentTool: Tool
    var color: Brush
    var lineWidth: real
    /** DrawingCanvas.Children */
    var children: seq<Shape>

    /**
     * The in-progress shape is the newest child and is on the canvas only
     * once, so reshaping it leaves every older child as it was.
     */
    ghost predicate Valid()
      reads this
    {
      (currentShape != null ==>
        |children| > 0 && currentShape == children[|children| - 1] &&
        currentShape !in children[..|children| - 1]) &&
      isDrawing == (currentShape != null)
    }

    function State(): DocState
      reads this, children
    {
      DocState(currentTool, color, lineWidth, isDrawing, startPoint, MarksOf(children), currentShape != null)
    }

    constructor ()
      ensures Valid() && State() == INITIAL && children == []
    {
      startPoint := Point(0.0, 0.0);
      currentShape := null;
      isDrawing := false;
      currentTool := Pen;
      color := BLACK;
      lineWidth := 1.0;
      children := [];
    }

    /** The Color setter. */
    method SetColor(c: Brush)
      requires Valid()
      modifies this, currentShape
      ensures Valid() && children == old(children) && currentShape == old(currentShape)
      ensures State() == AfterColor(old(State()), c)
    {
      color := c;
      if currentShape != null {
        currentShape.mark := currentShape.mark.(stroke := color);
      }
    }

    method SetTool(t: Tool)
      requires Valid()
      modifies this
      ensures Valid() && children == old(children) && currentShape == old(currentShape)
      ensures State() == old(State()).(tool := t)
    {
      currentTool := t;
    }

    method SetLineWidth(w: real)
      requires Valid()
      modifies this
      ensures Valid() && children == old(children) && currentShape == old(currentShape)
      ensures State() == old(State()).(lineWidth := w)
    {
      lineWidth := w;
    }

    /** DrawingCanvas_MouseDown at position p. */
    method MouseDown(p: Point)
      requires Valid()
      modifies this
      ensures Valid() && fresh(currentShape) && children == old(children) + [currentShape]
      ensures State() == AfterDown(old(State()), p)
    {
      ghost var s0, before := State(), children;
      isDrawing := true;
      startPoint := p;
      var shape := NewShape(currentTool, color, lineWidth, startPoint);
      assert MarksOf(before) == s0.marks;
      currentShape := shape;
      if currentShape != null {
        children := children + [currentShape];
      }
      MarksOfSnoc(before, shape);
      assert shape !in before;
      assert children[..|children| - 1] == before;
      assert State().marks == s0.marks + [StartMark(s0.tool, s0.color, s0.lineWidth, p)];
    }

    /**
     * DrawingCanvas_MouseMove to position p. The source casts the shape to
     * the class the current tool draws, so the tool must not have changed
     * since the shape was started.
     */
    method MouseMove(p: Point)
      requires Valid()
      requires currentShape != null ==> KindOf(currentShape.mark) == currentTool
      modifies currentShape
      ensures Valid()
      ensures State() == AfterMove(old(State()), p)
    {
      if !isDrawing || currentShape == null {
        return;
      }
      ghost var before := MarksOf(children);
      forall i | 0 <= i < |children| ensures before[i] == children[i].mark {
        MarksOfAt(children, i);
      }
      var currentPoint := p;
      match currentTool {
        case Pen =>
          currentShape.mark := currentShape.mark.(points := currentShape.mark.points + [currentPoint]);
        case Circle =>
          var deltaX := currentPoint.x - startPoint.x;
          var deltaY := currentPoint.y - startPoint.y;
          currentShape.mark := currentShape.mark.(left := Min(startPoint.x, currentPoint.x));
          currentShape.mark := currentShape.mark.(top := Min(startPoint.y, currentPoint.y));
          currentShape.mark := currentShape.mark.(width := Some(Abs(deltaX)));
          currentShape.mark := currentShape.mark.(height := Some(Abs(deltaY)));
      }
      MarksAfterReshape(before);
    }

    /** After the newest child alone is reshaped, the canvas shows the old marks with the last one replaced. */
    lemma MarksAfterReshape(before: seq<Mark>)
      requires Valid() && currentShape != null && |before| == |children|
      requires forall i :: 0 <= i < |children| - 1 ==> children[i].mark == before[i]
      ensures MarksOf(children) == before[|children| - 1 := currentShape.mark]
    {
      forall i | 0 <= i < |children|
        ensures MarksOf(children)[i] == before[|children| - 1 := currentShape.mark][i]
      {
        MarksOfAt(children, i);
      }
    }

    /** DrawingCanvas_MouseUp. */
    method MouseUp()
      requires Valid()
      modifies this
      ensures Valid() && children == old(children)
      ensures State() == AfterRelease(old(State()))
    {
      isDrawing := false;
      currentShape := null;
    }

    /** DrawingCanvas_MouseLeave. */
    method MouseLeave()
      requires Valid()
      modifies this
      ensures Valid() && children == old(children)
      ensures State() == AfterRelease(old(State()))
    {
      isDrawing := false;
      currentShape := null;
    }
  }
}
