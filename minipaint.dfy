/** The finger-painting view as a value-level state machine.

    A `ViewState` holds everything the view keeps between platform callbacks:
    the path of the stroke being drawn, the touch state, the off-screen cache
    bitmap (with the log of what was drawn into it through its canvas), the
    decorative frame, and two records of the view's outbound calls: how many
    times it asked for a repaint, and the order in which it released and
    allocated pixel buffers. Each callback of the view is a function from the
    old state to the new one; the class in CanvasView is proved against them. */
module MiniPaint {

  datatype Option<T> = None | Some(value: T)

  /** One element of an android.graphics.Path, as this view builds it. */
  datatype Seg = MoveTo(x: real, y: real) | QuadTo(cx: real, cy: real, ex: real, ey: real)

  datatype Point = Point(x: real, y: real)

  /** android.graphics.Rect: left, top, right, bottom, not normalised. */
  datatype Rect = Rect(left: int, top: int, right: int, bottom: int)

  /** The two colours looked up in the resources at construction; their values are opaque. */
  datatype Color = BackgroundColor | DrawColor

  /** An off-screen ARGB_8888 pixel buffer. `id` tells apart buffers of the same size. */
  datatype Bitmap = Bitmap(id: nat, width: int, height: int)

  /** A draw call made into the cache bitmap through its canvas. */
  datatype CacheOp = Fill(color: Color, width: int, height: int) | DrawPath(path: seq<Seg>)

  /** A call into the platform's pixel-buffer primitives. */
  datatype BufferCall = Allocate(bitmap: Bitmap) | Recycle(bitmap: Bitmap)

  /** A draw call made on the screen canvas when the view is repainted. */
  datatype ScreenOp = DrawBitmap(bitmap: Bitmap, content: seq<CacheOp>, left: real, top: real) | DrawRect(rect: Rect)

  /** A single-pointer android.view.MotionEvent: its action code and coordinates. */
  datatype MotionEvent = MotionEvent(action: int, x: real, y: real)

  // android.view.MotionEvent action codes
  const ActionDown: int := 0
  const ActionUp: int := 1
  const ActionMove: int := 2

  /** Inset of the decorative frame from every edge of the view. */
  const FrameInset: int := 40

  datatype ViewState = ViewState(
    path: seq<Seg>,
    motionTouchEventX: real,
    motionTouchEventY: real,
    currentX: real,
    currentY: real,
    touchTolerance: int,
    extraBitmap: Option<Bitmap>,  // None until the first size change (lateinit)
    cache: seq<CacheOp>,          // what has been drawn into extraBitmap
    frame: Option<Rect>,          // None until the first size change (lateinit)
    invalidations: nat,           // number of invalidate() calls
    bufferCalls: seq<BufferCall>) // recycle() and createBitmap() calls, in order

  function Abs(x: real): real
  {
    if x < 0.0 then -x else x
  }

  /** The last accepted touch point. */
  function Current(s: ViewState): Point
  {
    Point(s.currentX, s.currentY)
  }

  /** The coordinates of the latest touch event. */
  function Motion(s: ViewState): Point
  {
    Point(s.motionTouchEventX, s.motionTouchEventY)
  }

  /** The tolerance test of a move from `from` to `to`: the move reaches the
      tolerance, inclusively, in some direction along either axis. */
  predicate Passes(tol: int, from: Point, to: Point)
    ensures Passes(tol, from, to) <==>
              || to.x - from.x >= tol as real || from.x - to.x >= tol as real
              || to.y - from.y >= tol as real || from.y - to.y >= tol as real
  {
    Abs(to.x - from.x) >= tol as real || Abs(to.y - from.y) >= tol as real
  }

  /** The smoothing segment for a move from `from` to `to`: the control point is
      `from`, the end point is the midpoint of the two. */
  function Quad(from: Point, to: Point): (seg: Seg)
    ensures seg.QuadTo? && seg.cx == from.x && seg.cy == from.y
    ensures seg.ex - from.x == to.x - seg.ex && seg.ey - from.y == to.y - seg.ey
  {
    QuadTo(from.x, from.y, (to.x + from.x) / 2.0, (to.y + from.y) / 2.0)
  }

  /** Every allocated buffer is released right after it was replaced, the log
      alternates allocate/recycle, and it ends with the allocation of the
      current buffer; a buffer's id is the position of its allocation. */
  predicate BufferLog(calls: seq<BufferCall>, current: Option<Bitmap>)
  {
    && (current.None? <==> calls == [])
    && (current.Some? ==> |calls| % 2 == 1 && calls[|calls| - 1] == Allocate(current.value))
    && (forall i :: 0 <= i < |calls| && i % 2 == 0 ==> calls[i].Allocate? && calls[i].bitmap.id == i)
    && (forall i :: 0 <= i < |calls| && i % 2 == 1 ==> calls[i] == Recycle(calls[i - 1].bitmap))
  }

  /** The cache bitmap holds one background fill of its own size, then only strokes. */
  predicate CacheLog(cache: seq<CacheOp>, bitmap: Option<Bitmap>)
  {
    match bitmap
    case None => cache == []
    case Some(b) =>
      && |cache| > 0
      && cache[0] == Fill(BackgroundColor, b.width, b.height)
      && forall i :: 1 <= i < |cache| ==> cache[i].DrawPath?
  }

  predicate Valid(s: ViewState)
  {
    && s.touchTolerance >= 0
    && BufferLog(s.bufferCalls, s.extraBitmap)
    && CacheLog(s.cache, s.extraBitmap)
    && (s.extraBitmap.Some? <==> s.frame.Some?)
    && (s.extraBitmap.Some? ==> s.extraBitmap.value.width > 0 && s.extraBitmap.value.height > 0)
  }

  /** The view right after construction: an empty path, the touch state at the
      origin, and no buffer or frame yet. */
  function Initial(tol: int): (s: ViewState)
    requires tol >= 0
    ensures Valid(s)
    ensures s.path == [] && Current(s) == Point(0.0, 0.0) && Motion(s) == Point(0.0, 0.0)
    ensures s.touchTolerance == tol && s.extraBitmap.None? && s.frame.None?
    ensures s.cache == [] && s.invalidations == 0 && s.bufferCalls == []
  {
    ViewState([], 0.0, 0.0, 0.0, 0.0, tol, None, [], None, 0, [])
  }

  /** onSizeChanged: release the old buffer if there is one, then allocate a new
      one of the view's size, fill it with the background colour and place the
      frame 40 units inside every edge. */
  function OnSizeChanged(s: ViewState, w: int, h: int): (r: ViewState)
    requires w > 0 && h > 0
    ensures r.extraBitmap.Some? && r.extraBitmap.value.width == w && r.extraBitmap.value.height == h
    ensures r.bufferCalls == s.bufferCalls
                             + (if s.extraBitmap.Some? then [Recycle(s.extraBitmap.value)] else [])
                             + [Allocate(r.extraBitmap.value)]
    ensures r.extraBitmap.value.id == |r.bufferCalls| - 1
    ensures r.cache == [Fill(BackgroundColor, w, h)]
    ensures r.frame == Some(Rect(40, 40, w - 40, h - 40))
    ensures r.path == s.path && Current(r) == Current(s) && Motion(r) == Motion(s)
    ensures r.invalidations == s.invalidations && r.touchTolerance == s.touchTolerance
  {
    var released := if s.extraBitmap.Some? then [Recycle(s.extraBitmap.value)] else [];
    var bitmap := Bitmap(|s.bufferCalls| + |released|, w, h);
    s.(extraBitmap := Some(bitmap),
       bufferCalls := s.bufferCalls + released + [Allocate(bitmap)],
       cache := [Fill(BackgroundColor, w, h)],
       frame := Some(Rect(FrameInset, FrameInset, w - FrameInset, h - FrameInset)))
  }

  /** onDraw: the cache bitmap at the origin first, then the frame on top of it. */
  function OnDraw(s: ViewState): (ops: seq<ScreenOp>)
    requires s.extraBitmap.Some? && s.frame.Some?
    ensures |ops| == 2
    ensures ops[0] == DrawBitmap(s.extraBitmap.value, s.cache, 0.0, 0.0)
    ensures ops[|ops| - 1] == DrawRect(s.frame.value)
  {
    [DrawBitmap(s.extraBitmap.value, s.cache, 0.0, 0.0), DrawRect(s.frame.value)]
  }

  /** touchStart: a new stroke that starts at the latest touch point. */
  function TouchStart(s: ViewState): (r: ViewState)
    ensures r.path == [MoveTo(s.motionTouchEventX, s.motionTouchEventY)]
    ensures Current(r) == Motion(s)
    ensures r.cache == s.cache && r.invalidations == s.invalidations
    ensures r == s.(path := r.path, currentX := r.currentX, currentY := r.currentY)
  {
    s.(path := [MoveTo(s.motionTouchEventX, s.motionTouchEventY)],
       currentX := s.motionTouchEventX,
       currentY := s.motionTouchEventY)
  }

  /** touchMove: a move that passes the tolerance extends the path by one
      smoothing segment, becomes the current point and redraws the whole path
      into the cache; any move asks for a repaint. */
  function TouchMove(s: ViewState): (r: ViewState)
    requires Passes(s.touchTolerance, Current(s), Motion(s)) ==> s.extraBitmap.Some?
    ensures r.invalidations == s.invalidations + 1
    ensures !Passes(s.touchTolerance, Current(s), Motion(s)) ==>
              r == s.(invalidations := s.invalidations + 1)
    ensures Passes(s.touchTolerance, Current(s), Motion(s)) ==>
              && r.path == s.path + [QuadTo(s.currentX, s.currentY,
                                            (s.motionTouchEventX + s.currentX) / 2.0,
                                            (s.motionTouchEventY + s.currentY) / 2.0)]
              && Current(r) == Motion(s)
              && r.cache == s.cache + [DrawPath(r.path)]
              && r == s.(path := r.path, currentX := r.currentX, currentY := r.currentY,
                         cache := r.cache, invalidations := r.invalidations)
  {
    var moved :=
      if Passes(s.touchTolerance, Current(s), Motion(s)) then
        var path := s.path + [Quad(Current(s), Motion(s))];
        s.(path := path,
           currentX := s.motionTouchEventX,
           currentY := s.motionTouchEventY,
           cache := s.cache + [DrawPath(path)])
      else
        s;
    moved.(invalidations := moved.invalidations + 1)
  }

  /** touchUp: the stroke is over; the path is dropped, what it drew stays. */
  function TouchUp(s: ViewState): (r: ViewState)
    ensures r.path == []
    ensures Current(r) == Current(s) && r.cache == s.cache && r.invalidations == s.invalidations
    ensures r == s.(path := [])
  {
    s.(path := [])
  }

  /** What onTouchEvent needs of the view: a move that will draw finds the
      cache canvas allocated. */
  predicate CanHandle(s: ViewState, event: Option<MotionEvent>)
  {
    (event.Some? && event.value.action == ActionMove
     && Passes(s.touchTolerance, Current(s), Point(event.value.x, event.value.y)))
    ==> s.extraBitmap.Some?
  }

  /** onTouchEvent: record the event's coordinates and run the handler of its
      action. A null event or an action other than down, move and up changes
      nothing else; touch handling never touches the buffer or the frame. */
  function OnTouchEvent(s: ViewState, event: Option<MotionEvent>): (r: ViewState)
    requires CanHandle(s, event)
    ensures event.None? ==> r == s
    ensures event.Some? ==> r.motionTouchEventX == event.value.x && r.motionTouchEventY == event.value.y
    ensures event.Some? ==>
              var recorded := s.(motionTouchEventX := event.value.x, motionTouchEventY := event.value.y);
              && (event.value.action == ActionDown ==> r == TouchStart(recorded))
              && (event.value.action == ActionMove ==> r == TouchMove(recorded))
              && (event.value.action == ActionUp ==> r == TouchUp(recorded))
              && (event.value.action !in {ActionDown, ActionMove, ActionUp} ==> r == recorded)
    ensures r.extraBitmap == s.extraBitmap && r.frame == s.frame
    ensures r.bufferCalls == s.bufferCalls && r.touchTolerance == s.touchTolerance
  {
    match event
    case None => s
    case Some(e) =>
      var recorded := s.(motionTouchEventX := e.x, motionTouchEventY := e.y);
      if e.action == ActionDown then TouchStart(recorded)
      else if e.action == ActionMove then TouchMove(recorded)
      else if e.action == ActionUp then TouchUp(recorded)
      else recorded
  }

  /** Touch handling keeps the view's invariant. */
  lemma OnTouchEventPreservesValid(s: ViewState, event: Option<MotionEvent>)
    requires Valid(s) && CanHandle(s, event)
    ensures Valid(OnTouchEvent(s, event))
  {
  }

  /** Resizing keeps the view's invariant. */
  lemma OnSizeChangedPreservesValid(s: ViewState, w: int, h: int)
    requires Valid(s) && w > 0 && h > 0
    ensures Valid(OnSizeChanged(s, w, h))
  {
  }
}
