/** The drawing view as an object whose callbacks update its fields in place.
    Each callback method is proved, through `State()`, equal to the function of
    MiniPaint for the same callback; `Invalidate` only counts repaint requests.
    Every method that changes the view keeps the invariant `Valid()`. */
module CanvasView {
  import opened MiniPaint

  class MyCanvasView {
    var path: seq<Seg>
    var motionTouchEventX: real
    var motionTouchEventY: real
    var currentX: real
    var currentY: real
    const touchTolerance: int
    var extraBitmap: Option<Bitmap>
    /** What has been drawn into extraBitmap through its canvas (extraCanvas). */
    var cache: seq<CacheOp>
    var frame: Option<Rect>
    /** Calls of invalidate() so far. */
    var invalidations: nat
    /** Calls of recycle() and createBitmap() so far, in order. */
    var bufferCalls: seq<BufferCall>

    function State(): ViewState
      reads this
    {
      ViewState(path, motionTouchEventX, motionTouchEventY, currentX, currentY, touchTolerance,
                extraBitmap, cache, frame, invalidations, bufferCalls)
    }

    predicate Valid()
      reads this
    {
      MiniPaint.Valid(State())
    }

    /** The view as constructed, with the platform's touch slop `tol`. */
    constructor (tol: int)
      requires tol >= 0
      ensures Valid()
      ensures State() == Initial(tol)
    {
      path := [];
      motionTouchEventX, motionTouchEventY := 0.0, 0.0;
      currentX, currentY := 0.0, 0.0;
      touchTolerance := tol;
      extraBitmap := None;
      cache := [];
      frame := None;
      invalidations := 0;
      bufferCalls := [];
    }

    method OnSizeChanged(w: int, h: int, oldw: int, oldh: int)
      requires Valid() && w > 0 && h > 0
      modifies this
      ensures Valid()
      ensures State() == MiniPaint.OnSizeChanged(old(State()), w, h)
      ensures bufferCalls == old(bufferCalls)
                             + (if old(extraBitmap).Some? then [Recycle(old(extraBitmap).value)] else [])
                             + [Allocate(extraBitmap.value)]
      ensures cache == [Fill(BackgroundColor, w, h)]
      ensures frame == Some(Rect(40, 40, w - 40, h - 40))
    {
      ghost var before := State();
      if extraBitmap.Some? {
        bufferCalls := bufferCalls + [Recycle(extraBitmap.value)];
      }
      var bitmap := Bitmap(|bufferCalls|, w, h);
      bufferCalls := bufferCalls + [Allocate(bitmap)];
      extraBitmap := Some(bitmap);
      cache := [];
      cache := cache + [Fill(BackgroundColor, w, h)];
      frame := Some(Rect(FrameInset, FrameInset, w - FrameInset, h - FrameInset));
      MiniPaint.OnSizeChangedPreservesValid(before, w, h);
    }

    /** The draw calls made on the screen canvas; nothing of the view changes. */
    method OnDraw() returns (ops: seq<ScreenOp>)
      requires extraBitmap.Some? && frame.Some?
      ensures ops == MiniPaint.OnDraw(State())
    {
      ops := [DrawBitmap(extraBitmap.value, cache, 0.0, 0.0)];
      ops := ops + [DrawRect(frame.value)];
    }

    method OnTouchEvent(event: Option<MotionEvent>) returns (handled: bool)
      requires Valid() && CanHandle(State(), event)
      modifies this
      ensures Valid()
      ensures handled
      ensures State() == MiniPaint.OnTouchEvent(old(State()), event)
      ensures event.None? ==> State() == old(State())
      ensures event.Some? ==> motionTouchEventX == event.value.x && motionTouchEventY == event.value.y
    {
      ghost var before := State();
      if event.Some? {
        motionTouchEventX := event.value.x;
        motionTouchEventY := event.value.y;
        if event.value.action == ActionDown {
          TouchStart();
        } else if event.value.action == ActionMove {
          TouchMove();
        } else if event.value.action == ActionUp {
          TouchUp();
        }
      }
      MiniPaint.OnTouchEventPreservesValid(before, event);
      handled := true;
    }

    method TouchStart()
      requires Valid()
      modifies this
      ensures Valid()
      ensures State() == MiniPaint.TouchStart(old(State()))
      ensures path == [MoveTo(old(motionTouchEventX), old(motionTouchEventY))]
      ensures currentX == motionTouchEventX && currentY == motionTouchEventY
      ensures cache == old(cache)
    {
      path := [];
      path := path + [MoveTo(motionTouchEventX, motionTouchEventY)];
      currentX := motionTouchEventX;
      currentY := motionTouchEventY;
    }

    method TouchMove()
      requires Passes(touchTolerance, Point(currentX, currentY), Point(motionTouchEventX, motionTouchEventY))
               ==> extraBitmap.Some?
      requires Valid()
      modifies this
      ensures Valid()
      ensures State() == MiniPaint.TouchMove(old(State()))
      ensures invalidations == old(invalidations) + 1
    {
      var dx := Abs(motionTouchEventX - currentX);
      var dy := Abs(motionTouchEventY - currentY);
      if dx >= touchTolerance as real || dy >= touchTolerance as real {
        path := path + [QuadTo(currentX, currentY, (motionTouchEventX + currentX) / 2.0, (motionTouchEventY + currentY) / 2.0)];
        currentX := motionTouchEventX;
        currentY := motionTouchEventY;
        cache := cache + [DrawPath(path)];
      }
      Invalidate();
    }

    method TouchUp()
      requires Valid()
      modifies this
      ensures Valid()
      ensures State() == MiniPaint.TouchUp(old(State()))
      ensures path == []
    {
      path := [];
    }

    /** Asks the platform for a repaint; only the count is modelled. */
    method Invalidate()
      requires Valid()
      modifies this`invalidations
      ensures Valid()
      ensures invalidations == old(invalidations) + 1
    {
      invalidations := invalidations + 1;
    }
  }
}
