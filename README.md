# MiniPaint drawing view: the stroke state machine

This project models `MyCanvasView`, the Android view of the MiniPaint app that lets a user
finger-paint freehand strokes. The view keeps an off-screen bitmap as a cache of everything
drawn so far. It turns touch samples into a smoothed path of quadratic Bézier segments:
each segment's control point is the last accepted sample and its end point is the midpoint
between that sample and the new one. After every accepted move it draws the whole path
into the cache. It redraws the cache plus a decorative frame whenever it is repainted.

Three files make up the model:

- `minipaint.dfy` (module `MiniPaint`) models the view's state as a value, `ViewState`.
  Each callback is a function from the old state to the new one:
  `OnSizeChanged`, `OnDraw`, `OnTouchEvent`, `TouchStart`, `TouchMove` and `TouchUp`.
  `Valid` is the invariant that links the buffer, its content log, the frame and the
  buffer-call log; `OnTouchEventPreservesValid` and `OnSizeChangedPreservesValid` show
  that the callbacks keep it.
- `canvas_view.dfy` (module `CanvasView`) holds the class `MyCanvasView`. Its fields are
  the view's fields, and its methods with `modifies this` update them in place the way the
  Kotlin code does. Each callback method is proved equal, through `State()`, to the
  matching function of `MiniPaint`. `Invalidate` has no such function: it only counts
  repaint requests. Every method that changes the view keeps `Valid()`.
- `stroke_properties.dfy` (module `StrokeProperties`) gives a reference description of a
  stroke that does not depend on the state machine:
  - `Accepted` is the list of samples that pass the tolerance test, each one measured
    against the last sample kept before it.
  - `Chain` is the smoothed curve through the kept samples.
  - `Draws` is the list of path snapshots drawn into the cache.

  The module then proves that running the touch handler over a gesture (`Run`) produces
  exactly these. It also proves the buffer-lifecycle properties across resizes.

How the platform appears in the model:

- Coordinates are `real`, so the midpoint `(x + currentX) / 2` is exact.
- The cache bitmap's pixels are a log of the draw calls made into it through its canvas:
  one background `Fill` of the buffer's size, then one `DrawPath` per accepted move.
- `invalidate()` is a counter.
- `recycle()` and `Bitmap.createBitmap()` are entries of a log (`bufferCalls`), so the
  order "release the old buffer, then allocate the new one" can be stated. A buffer's `id`
  is the position of its allocation in that log, so two buffers of the same size can be
  told apart.
- The touch slop (`touchTolerance`) is a constructor parameter `tol >= 0`.
- The two resource colours are the opaque constants `BackgroundColor` and `DrawColor`.
- The `lateinit` bitmap, canvas and frame are `Option`s. A callback that would read them
  before the first `onSizeChanged` requires them to be set:
  - `onDraw` always reads them;
  - `touchMove` reads them only when the move passes the tolerance test (`CanHandle`).
- Touch action codes are the platform's integers: `ACTION_DOWN` = 0, `ACTION_UP` = 1,
  `ACTION_MOVE` = 2. Any other integer is an action that is ignored.

Three behaviours of the code are worth stating plainly, and the model has each of them:

- The tolerance test is inclusive on both axes: a move is kept when `dx >= touchTolerance`
  or `dy >= touchTolerance` (MyCanvasView.kt:91).
- `invalidate()` runs after every move event, whether the move was kept or rejected
  (MyCanvasView.kt:100).
- The frame is `Rect(40, 40, w - 40, h - 40)` with no clamping (MyCanvasView.kt:56). When
  `w` or `h` is at most 80 this rectangle is inverted or empty, and the model keeps it that way.

## Model

| member | source | states |
|---|---|---|
| `MiniPaint.Initial` | app/src/main/java/com/example/android/minipaint/MyCanvasView.kt:33-45 | A new view has an empty path, the current point and the last event point at (0, 0), the given tolerance, no buffer or frame yet, no repaints and no buffer calls; the state satisfies the invariant |
| `MiniPaint.OnSizeChanged` | app/src/main/java/com/example/android/minipaint/MyCanvasView.kt:47-57 | The old buffer is recycled if and only if there is one, and before the new one is allocated. The new buffer is w×h and its whole content is one background fill, so earlier strokes are gone. The frame is exactly (40, 40, w-40, h-40), unclamped. The path, the touch state and the repaint count are unchanged |
| `MiniPaint.OnDraw` | app/src/main/java/com/example/android/minipaint/MyCanvasView.kt:60-65 | Repainting makes exactly two draw calls: first the cache bitmap with its content at (0, 0), then the frame rectangle on top |
| `MiniPaint.TouchStart` | app/src/main/java/com/example/android/minipaint/MyCanvasView.kt:79-84 | The path becomes a single move-to at the event point, the current point becomes the event point, and nothing else changes; nothing is drawn and no repaint is requested |
| `MiniPaint.TouchMove` | app/src/main/java/com/example/android/minipaint/MyCanvasView.kt:88-101 | The repaint count always goes up by one. A move short of the tolerance on both axes changes nothing else. A move that reaches it on either axis (inclusive) appends QuadTo(old current, midpoint of old current and event), makes the event point current, appends exactly one cache entry equal to the whole new path, and changes nothing else |
| `MiniPaint.TouchUp` | app/src/main/java/com/example/android/minipaint/MyCanvasView.kt:103-106 | The path becomes empty; the current point, the cache and the repaint count are unchanged |
| `MiniPaint.OnTouchEvent` | app/src/main/java/com/example/android/minipaint/MyCanvasView.kt:67-77 | A null event changes nothing. Any other event records its coordinates as the last event point and then runs, on that state, `TouchStart` for down, `TouchMove` for move and `TouchUp` for up. An action other than down, move and up changes nothing else. Touch handling never changes the buffer, the frame, the buffer calls or the tolerance |
| `MiniPaint.Passes` | app/src/main/java/com/example/android/minipaint/MyCanvasView.kt:89-91 | The tolerance test holds exactly when the move reaches the tolerance, inclusively, in some direction along the x axis or the y axis |
| `MiniPaint.Quad` | app/src/main/java/com/example/android/minipaint/MyCanvasView.kt:94 | The smoothing segment is a quadratic segment whose control point is the old current point and whose end point lies exactly halfway between the old current point and the event point on both axes |
| `StrokeProperties.Run` | app/src/main/java/com/example/android/minipaint/MyCanvasView.kt:67-106 | Delivering any sequence of touch events leaves the buffer, the frame, the buffer-call log and the tolerance as they were |
| `StrokeProperties.Accepted` | app/src/main/java/com/example/android/minipaint/MyCanvasView.kt:89-96 | Reference filter of a gesture's samples: the first kept sample passes the tolerance test against the starting point, and each later kept sample passes it against the kept sample before it; no more samples are kept than were given |
| `StrokeProperties.AcceptedSnoc` | app/src/main/java/com/example/android/minipaint/MyCanvasView.kt:89-96 | Feeding one more sample to the filter keeps every earlier choice, and keeps the new sample exactly when it passes the tolerance test against the last point kept so far (the start point if none) |
| `StrokeProperties.Chain` | app/src/main/java/com/example/android/minipaint/MyCanvasView.kt:94 | The smoothed curve has one quadratic segment per kept sample |
| `StrokeProperties.ChainSegments` | app/src/main/java/com/example/android/minipaint/MyCanvasView.kt:94-96 | The k-th segment of the smoothed curve is `Quad` from the point before the k-th kept sample (the stroke's start for the first) to the k-th kept sample: that earlier point is its control point and the midpoint of the two is its end point |
| `StrokeProperties.Draws` | app/src/main/java/com/example/android/minipaint/MyCanvasView.kt:98 | A gesture draws one cache entry per kept sample |
| `StrokeProperties.RunAppend` | app/src/main/java/com/example/android/minipaint/MyCanvasView.kt:67-77 | Delivering `a` and then `b` is the same as delivering `a + b`: events are handled strictly in order, one after another |
| `MiniPaint.OnTouchEventPreservesValid` | app/src/main/java/com/example/android/minipaint/MyCanvasView.kt:67-106 | Any touch event that the view can handle keeps the invariant |
| `StrokeProperties.RunPreservesValid` | app/src/main/java/com/example/android/minipaint/MyCanvasView.kt:67-106 | Any sequence of touch events keeps the invariant of an initialised view |
| `StrokeProperties.DrawsAreSnapshots` | app/src/main/java/com/example/android/minipaint/MyCanvasView.kt:94-98 | The k-th cache entry of a gesture is the whole path as it stood after the k-th kept sample |
| `StrokeProperties.MovesExtendStroke` | app/src/main/java/com/example/android/minipaint/MyCanvasView.kt:88-101 | Any run of moves appends `Chain` of the kept samples to the path. The last kept sample (or the old current point) becomes current. The cache gains exactly the `Draws` snapshots, one per kept sample. The repaint count goes up by the number of samples, kept or not |
| `StrokeProperties.JitterIsDropped` | app/src/main/java/com/example/android/minipaint/MyCanvasView.kt:89-91 | Samples that are all short of the tolerance of the starting point on both axes are all dropped |
| `StrokeProperties.JitterChangesNothing` | app/src/main/java/com/example/android/minipaint/MyCanvasView.kt:88-101 | Moves that all stay within the tolerance of the current point leave the path, the current point and the cache unchanged; only the repaint count grows, by one per move |
| `StrokeProperties.StrokeCommitsAcceptedMoves` | app/src/main/java/com/example/android/minipaint/MyCanvasView.kt:79-106 | For a whole stroke (down at p0, moves, up), the path while the finger is down is move-to p0 followed by `Chain` of the kept samples. After up the path is empty. The cache has gained exactly one snapshot per kept sample, so its length grows by the number of accepted moves. The current point is the last kept sample |
| `StrokeProperties.DownThenUpDrawsNothing` | app/src/main/java/com/example/android/minipaint/MyCanvasView.kt:79-84 | A touch down followed directly by touch up leaves the cache and the repaint count unchanged and the path empty |
| `StrokeProperties.TwoMovesScenario` | app/src/main/java/com/example/android/minipaint/MyCanvasView.kt:79-106 | down(10,10), move(10,10+tol+1), move(10,10+2tol+2), up: both moves are accepted, the cache gains two entries and the last one is the full two-segment path, the path is empty afterwards, and the current point is the last move |
| `StrokeProperties.SubToleranceScenario` | app/src/main/java/com/example/android/minipaint/MyCanvasView.kt:79-106 | down(5,5), move(6,6), up with tolerance at least 2: nothing is drawn, the current point stays (5,5), one repaint is requested |
| `StrokeProperties.BufferLogAt` | app/src/main/java/com/example/android/minipaint/MyCanvasView.kt:49-51 | In a well-formed buffer log, even positions are allocations whose id is their position, and odd positions recycle the buffer allocated just before |
| `MiniPaint.OnSizeChangedPreservesValid` | app/src/main/java/com/example/android/minipaint/MyCanvasView.kt:47-57 | A resize keeps the invariant: the log still alternates allocate and recycle and ends with the current buffer, and the cache is one background fill of the buffer's size |
| `StrokeProperties.ResizeAllocatesFreshBuffer` | app/src/main/java/com/example/android/minipaint/MyCanvasView.kt:49-51 | The buffer a resize allocates differs from every buffer named earlier in the log |
| `StrokeProperties.NoBufferLeaks` | app/src/main/java/com/example/android/minipaint/MyCanvasView.kt:49-51 | Every allocated buffer other than the current one was recycled by the very next buffer call, before any other allocation |
| `StrokeProperties.ResizeTwiceGivesFreshBuffers` | app/src/main/java/com/example/android/minipaint/MyCanvasView.kt:47-57 | Two resizes to the same size give two distinct buffers, each holding only the background fill; the second resize recycles the first buffer and then allocates the second |
| `StrokeProperties.ResizeErasesStrokes` | app/src/main/java/com/example/android/minipaint/MyCanvasView.kt:47-57 | Whatever touch events came before, a resize leaves the cache holding only the background fill |
| `CanvasView.MyCanvasView.constructor` | app/src/main/java/com/example/android/minipaint/MyCanvasView.kt:33-45 | The constructed view is the initial state and satisfies the invariant |
| `CanvasView.MyCanvasView.OnSizeChanged` | app/src/main/java/com/example/android/minipaint/MyCanvasView.kt:47-57 | The in-place update equals `MiniPaint.OnSizeChanged` of the old state: recycle if present, then allocate, fill with the background colour and set the frame; the invariant is kept |
| `CanvasView.MyCanvasView.OnDraw` | app/src/main/java/com/example/android/minipaint/MyCanvasView.kt:60-65 | Repainting modifies nothing and makes the calls of `MiniPaint.OnDraw`: the bitmap at the origin, then the frame |
| `CanvasView.MyCanvasView.OnTouchEvent` | app/src/main/java/com/example/android/minipaint/MyCanvasView.kt:67-77 | The handler always returns true, and its update equals `MiniPaint.OnTouchEvent`. A null event changes nothing, and any other event's coordinates are recorded. The invariant is kept |
| `CanvasView.MyCanvasView.TouchStart` | app/src/main/java/com/example/android/minipaint/MyCanvasView.kt:79-84 | Reset, move-to at the event point and latching of the current point equal `MiniPaint.TouchStart`; the cache is untouched and the invariant is kept |
| `CanvasView.MyCanvasView.TouchMove` | app/src/main/java/com/example/android/minipaint/MyCanvasView.kt:88-101 | The in-place tolerance test, quadTo, update of the current point, drawPath and invalidate equal `MiniPaint.TouchMove`; the repaint count always goes up by one, and the invariant is kept |
| `CanvasView.MyCanvasView.TouchUp` | app/src/main/java/com/example/android/minipaint/MyCanvasView.kt:103-106 | The reset equals `MiniPaint.TouchUp`: the path becomes empty; the invariant is kept |
| `CanvasView.MyCanvasView.Invalidate` | app/src/main/java/com/example/android/minipaint/MyCanvasView.kt:100 | A repaint request adds one to the counter, changes no other field and keeps the invariant |

## Left out

- Rasterisation and pixel contents: anti-aliasing, dithering, stroke join, cap and width
  (MyCanvasView.kt:20-30) are platform graphics internals. The cache is a log of draw
  calls, and the pen style is not part of a `DrawPath` entry.
- Floating-point rounding in `Math.abs` and in the midpoint: coordinates are exact reals.
- Where the tolerance comes from (`ViewConfiguration.get(context).scaledTouchSlop`): it is a
  constructor parameter. The two colours looked up through `ResourcesCompat.getColor` are
  opaque constants.
- How `invalidate()` schedules repaints, the view lifecycle and the `super` calls:
  invalidation is only a counter.
- The crash on reaching a `lateinit` field before the first `onSizeChanged`. It becomes a
  precondition instead: `onDraw` requires the buffer and frame, and a `touchMove` that
  passes the tolerance requires the buffer.
- Multi-touch and pointer ids, and bitmap allocation failure: the code handles neither.
  `onSizeChanged` requires `w > 0` and `h > 0`, which `Bitmap.createBitmap` demands.
- `onSizeChanged` reads the view's `width` and `height` properties rather than its
  parameters `w` and `h` (MyCanvasView.kt:51, 56). The model uses `w` and `h`, which the
  platform makes equal to those properties at this callback. `oldw` and `oldh` are unused,
  as in the code.
- A move on an empty path (a move with no down since the last up) appends a quadratic
  segment to the empty segment list. Android's implicit move-to (0, 0) at the start of such
  a contour is not modelled.
- StrokeProperties.Run, and the lemmas built on it, require the buffer to be allocated.
  Touch handling before the first resize is covered one event at a time by
  `MiniPaint.OnTouchEvent`.
