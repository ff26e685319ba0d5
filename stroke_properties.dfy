/** What the view's callbacks do over whole gestures and resizes.

    A stroke is described independently of the state machine: the samples a
    finger reports are filtered by the tolerance test against the last sample
    kept (`Accepted`), and the kept points are turned into a chain of
    quadratic segments, one per kept point: the k-th segment's control point is
    the point kept before it (the stroke's start for the first one) and its
    end point is the midpoint between that point and the k-th kept point
    (`Chain`). The lemmas
    show that running the touch handler over a gesture builds exactly that
    chain, draws one snapshot of the growing path per kept sample, and that
    the buffer log stays well formed across resizes. */
module StrokeProperties {
  import opened MiniPaint

  /** The platform delivering touch events one after another to onTouchEvent. */
  function Run(s: ViewState, events: seq<Option<MotionEvent>>): (r: ViewState)
    requires s.extraBitmap.Some?
    ensures r.extraBitmap == s.extraBitmap && r.frame == s.frame
    ensures r.bufferCalls == s.bufferCalls && r.touchTolerance == s.touchTolerance
    decreases |events|
  {
    if events == [] then s else Run(OnTouchEvent(s, events[0]), events[1..])
  }

  function Down(p: Point): Option<MotionEvent>
  {
    Some(MotionEvent(ActionDown, p.x, p.y))
  }

  function Move(p: Point): Option<MotionEvent>
  {
    Some(MotionEvent(ActionMove, p.x, p.y))
  }

  function Up(p: Point): Option<MotionEvent>
  {
    Some(MotionEvent(ActionUp, p.x, p.y))
  }

  /** One move event per sample, in order. */
  function Moves(samples: seq<Point>): (events: seq<Option<MotionEvent>>)
    ensures |events| == |samples|
    decreases |samples|
  {
    if samples == [] then []
    else [Move(samples[0])] + Moves(samples[1..])
  }

  /** The samples kept by the tolerance test, each one measured against the
      last sample kept before it (starting from `from`). */
  function Accepted(tol: int, from: Point, samples: seq<Point>): (kept: seq<Point>)
    ensures |kept| <= |samples|
    ensures kept != [] ==> Passes(tol, from, kept[0])
    ensures forall k :: 0 < k < |kept| ==> Passes(tol, kept[k - 1], kept[k])
    decreases |samples|
  {
    if samples == [] then []
    else if Passes(tol, from, samples[0]) then [samples[0]] + Accepted(tol, samples[0], samples[1..])
    else Accepted(tol, from, samples[1..])
  }

  /** The smoothed curve through the kept points, starting from `from`. */
  function Chain(from: Point, pts: seq<Point>): (segs: seq<Seg>)
    ensures |segs| == |pts|
    decreases |pts|
  {
    if pts == [] then [] else [Quad(from, pts[0])] + Chain(pts[0], pts[1..])
  }

  /** The k-th segment of the chain has the point before the k-th kept point
      (`from` for the first) as its control point, and ends at the midpoint
      between that point and the k-th kept point. */
  lemma {:induction false} ChainSegments(from: Point, pts: seq<Point>)
    ensures forall k :: 0 <= k < |pts| ==> Chain(from, pts)[k] == Quad(if k == 0 then from else pts[k - 1], pts[k])
    decreases |pts|
  {
    if pts != [] {
      var rest := pts[1..];
      ChainSegments(pts[0], rest);
      assert Chain(from, pts) == [Quad(from, pts[0])] + Chain(pts[0], rest);
      forall k | 1 <= k < |pts|
        ensures Chain(from, pts)[k] == Quad(pts[k - 1], pts[k])
      {
        assert Chain(from, pts)[k] == Chain(pts[0], rest)[k - 1];
        assert (if k - 1 == 0 then pts[0] else rest[k - 2]) == pts[k - 1];
      }
    }
  }

  /** The cache entries drawn while `pts` extend the path `base` from `from`. */
  function Draws(base: seq<Seg>, from: Point, pts: seq<Point>): (ops: seq<CacheOp>)
    ensures |ops| == |pts|
    decreases |pts|
  {
    if pts == [] then []
    else
      var path := base + [Quad(from, pts[0])];
      [DrawPath(path)] + Draws(path, pts[0], pts[1..])
  }

  function LastOr(p: Point, pts: seq<Point>): Point
  {
    if pts == [] then p else pts[|pts| - 1]
  }

  /** Feeding one more sample: it is kept exactly when it passes the tolerance
      test against the last point kept so far, and the earlier choices stay. */
  lemma {:induction false} AcceptedSnoc(tol: int, from: Point, samples: seq<Point>, i: nat)
    requires i < |samples|
    ensures var before := Accepted(tol, from, samples[..i]);
            Accepted(tol, from, samples[..i + 1])
              == before + (if Passes(tol, LastOr(from, before), samples[i]) then [samples[i]] else [])
    decreases i
  {
    var prefix := samples[..i + 1];
    if i == 0 {
      assert samples[..0] == [];
      assert prefix == [samples[0]];
      assert prefix[1..] == [];
    } else {
      var rest := samples[1..];
      assert prefix[0] == samples[0];
      assert prefix[1..] == rest[..i];
      assert samples[..i][0] == samples[0];
      assert samples[..i][1..] == rest[..i - 1];
      if Passes(tol, from, samples[0]) {
        AcceptedSnoc(tol, samples[0], rest, i - 1);
        var later := Accepted(tol, samples[0], rest[..i - 1]);
        assert LastOr(samples[0], later) == LastOr(from, [samples[0]] + later);
      } else {
        AcceptedSnoc(tol, from, rest, i - 1);
      }
    }
  }

  lemma {:induction false} RunAppend(s: ViewState, a: seq<Option<MotionEvent>>, b: seq<Option<MotionEvent>>)
    requires s.extraBitmap.Some?
    ensures Run(s, a + b) == Run(Run(s, a), b)
    decreases |a|
  {
    if a == [] {
      assert a + b == b;
    } else {
      assert (a + b)[0] == a[0];
      assert (a + b)[1..] == a[1..] + b;
      RunAppend(OnTouchEvent(s, a[0]), a[1..], b);
    }
  }

  lemma {:induction false} RunPreservesValid(s: ViewState, events: seq<Option<MotionEvent>>)
    requires Valid(s) && s.extraBitmap.Some?
    ensures Valid(Run(s, events))
    decreases |events|
  {
    if events != [] {
      OnTouchEventPreservesValid(s, events[0]);
      RunPreservesValid(OnTouchEvent(s, events[0]), events[1..]);
    }
  }

  /** Each cache entry of a gesture is the whole path as it stood after the
      corresponding kept sample. */
  lemma {:induction false} DrawsAreSnapshots(base: seq<Seg>, from: Point, pts: seq<Point>, k: nat)
    requires k < |pts|
    ensures Draws(base, from, pts)[k] == DrawPath(base + Chain(from, pts[..k + 1]))
    decreases |pts|
  {
    var path := base + [Quad(from, pts[0])];
    if k == 0 {
      assert pts[..1] == [pts[0]];
      assert Chain(from, pts[..1]) == [Quad(from, pts[0])] + Chain(pts[0], []);
    } else {
      DrawsAreSnapshots(path, pts[0], pts[1..], k - 1);
      assert pts[..k + 1][0] == pts[0];
      assert pts[..k + 1][1..] == pts[1..][..k];
      assert Chain(from, pts[..k + 1]) == [Quad(from, pts[0])] + Chain(pts[0], pts[1..][..k]);
      assert base + Chain(from, pts[..k + 1]) == path + Chain(pts[0], pts[1..][..k]);
    }
  }

  /** A run of moves appends the smoothed chain of the kept samples to the
      path, leaves the last kept sample as the current point, draws one
      snapshot per kept sample and asks for one repaint per sample. */
  lemma {:induction false} MovesExtendStroke(s: ViewState, samples: seq<Point>)
    requires s.extraBitmap.Some?
    ensures var kept := Accepted(s.touchTolerance, Current(s), samples);
            var r := Run(s, Moves(samples));
            && r.path == s.path + Chain(Current(s), kept)
            && Current(r) == LastOr(Current(s), kept)
            && r.cache == s.cache + Draws(s.path, Current(s), kept)
            && r.invalidations == s.invalidations + |samples|
    decreases |samples|
  {
    var c := Current(s);
    var tol := s.touchTolerance;
    if samples == [] {
      assert Run(s, Moves(samples)) == s;
    } else {
      var p := samples[0];
      var e := Move(p);
      var s1 := OnTouchEvent(s, e);
      var rest := Moves(samples[1..]);
      assert Moves(samples) == [e] + rest;
      assert ([e] + rest)[0] == e && ([e] + rest)[1..] == rest;
      assert Run(s, Moves(samples)) == Run(s1, rest);
      MovesExtendStroke(s1, samples[1..]);
      if Passes(tol, c, p) {
        var later := Accepted(tol, p, samples[1..]);
        assert Accepted(tol, c, samples) == [p] + later;
        assert ([p] + later)[0] == p && ([p] + later)[1..] == later;
        assert Chain(c, [p] + later) == [Quad(c, p)] + Chain(p, later);
        assert Draws(s.path, c, [p] + later) == [DrawPath(s.path + [Quad(c, p)])] + Draws(s.path + [Quad(c, p)], p, later);
        assert LastOr(p, later) == LastOr(c, [p] + later);
      } else {
        assert Accepted(tol, c, samples) == Accepted(tol, c, samples[1..]);
      }
    }
  }

  /** Every sample short of the tolerance on both axes is dropped. */
  lemma {:induction false} JitterIsDropped(tol: int, from: Point, samples: seq<Point>)
    requires forall i :: 0 <= i < |samples| ==> !Passes(tol, from, samples[i])
    ensures Accepted(tol, from, samples) == []
    decreases |samples|
  {
    if samples != [] {
      JitterIsDropped(tol, from, samples[1..]);
    }
  }

  /** Jitter within the tolerance of the current point changes neither the
      path, nor the current point, nor the cache; it only asks for repaints. */
  lemma JitterChangesNothing(s: ViewState, samples: seq<Point>)
    requires s.extraBitmap.Some?
    requires forall i :: 0 <= i < |samples| ==> !Passes(s.touchTolerance, Current(s), samples[i])
    ensures var r := Run(s, Moves(samples));
            && r.path == s.path && Current(r) == Current(s) && r.cache == s.cache
            && r.invalidations == s.invalidations + |samples|
  {
    JitterIsDropped(s.touchTolerance, Current(s), samples);
    MovesExtendStroke(s, samples);
  }

  /** A whole stroke (down at p0, moves, up anywhere): while the finger is down
      the path is the smoothed chain from p0 through the kept samples; after
      up the path is empty, and the cache has gained exactly one snapshot per
      kept sample. */
  lemma StrokeCommitsAcceptedMoves(s: ViewState, p0: Point, samples: seq<Point>, q: Point)
    requires s.extraBitmap.Some?
    ensures var kept := Accepted(s.touchTolerance, p0, samples);
            var held := Run(s, [Down(p0)] + Moves(samples));
            var r := Run(s, [Down(p0)] + Moves(samples) + [Up(q)]);
            && held.path == [MoveTo(p0.x, p0.y)] + Chain(p0, kept)
            && r.path == []
            && r.cache == s.cache + Draws([MoveTo(p0.x, p0.y)], p0, kept)
            && |r.cache| == |s.cache| + |kept|
            && Current(r) == LastOr(p0, kept)
            && r.invalidations == s.invalidations + |samples|
  {
    var started := OnTouchEvent(s, Down(p0));
    assert Run(s, [Down(p0)]) == started;
    RunAppend(s, [Down(p0)], Moves(samples));
    MovesExtendStroke(started, samples);
    var held := Run(s, [Down(p0)] + Moves(samples));
    RunAppend(s, [Down(p0)] + Moves(samples), [Up(q)]);
    assert Run(held, [Up(q)]) == OnTouchEvent(held, Up(q));
  }

  /** A touch down followed directly by touch up draws nothing. */
  lemma DownThenUpDrawsNothing(s: ViewState, p: Point, q: Point)
    requires s.extraBitmap.Some?
    ensures var r := Run(s, [Down(p), Up(q)]);
            r.path == [] && r.cache == s.cache && r.invalidations == s.invalidations
  {
    StrokeCommitsAcceptedMoves(s, p, [], q);
    assert [Down(p)] + Moves([]) + [Up(q)] == [Down(p), Up(q)];
  }

  /** down(10,10), move(10,10+tol+1), move(10,10+2tol+2), up: two kept moves,
      two snapshots in the cache, an empty path and the current point at the
      last move. */
  lemma TwoMovesScenario(s: ViewState)
    requires s.extraBitmap.Some?
    ensures var t := s.touchTolerance as real;
            var p1 := Point(10.0, 10.0 + t + 1.0);
            var p2 := Point(10.0, 10.0 + 2.0 * t + 2.0);
            var r := Run(s, [Down(Point(10.0, 10.0)), Move(p1), Move(p2), Up(p2)]);
            && r.path == []
            && |r.cache| == |s.cache| + 2
            && r.cache[|r.cache| - 1] == DrawPath([MoveTo(10.0, 10.0), Quad(Point(10.0, 10.0), p1), Quad(p1, p2)])
            && Current(r) == p2
            && r.invalidations == s.invalidations + 2
  {
    var t := s.touchTolerance as real;
    var p0 := Point(10.0, 10.0);
    var p1 := Point(10.0, 10.0 + t + 1.0);
    var p2 := Point(10.0, 10.0 + 2.0 * t + 2.0);
    var tol := s.touchTolerance;
    assert Passes(tol, p0, p1);
    assert Passes(tol, p1, p2);
    assert Accepted(tol, p2, []) == [];
    assert Accepted(tol, p1, [p2]) == [p2];
    assert [p1, p2][1..] == [p2];
    assert Accepted(tol, p0, [p1, p2]) == [p1, p2];
    StrokeCommitsAcceptedMoves(s, p0, [p1, p2], p2);
    assert [Down(p0)] + Moves([p1, p2]) + [Up(p2)] == [Down(p0), Move(p1), Move(p2), Up(p2)];
    DrawsAreSnapshots([MoveTo(10.0, 10.0)], p0, [p1, p2], 1);
    assert [p1, p2][..2] == [p1, p2];
    assert Chain(p0, [p1, p2]) == [Quad(p0, p1), Quad(p1, p2)];
  }

  /** down(5,5), move(6,6), up with a tolerance above 1: the move is dropped and
      nothing is drawn. */
  lemma SubToleranceScenario(s: ViewState)
    requires s.extraBitmap.Some? && s.touchTolerance >= 2
    ensures var r := Run(s, [Down(Point(5.0, 5.0)), Move(Point(6.0, 6.0)), Up(Point(6.0, 6.0))]);
            && r.path == [] && r.cache == s.cache && Current(r) == Point(5.0, 5.0)
            && r.invalidations == s.invalidations + 1
  {
    var p0 := Point(5.0, 5.0);
    var p1 := Point(6.0, 6.0);
    assert !Passes(s.touchTolerance, p0, p1);
    assert Accepted(s.touchTolerance, p0, [p1]) == [];
    StrokeCommitsAcceptedMoves(s, p0, [p1], p1);
    assert [Down(p0)] + Moves([p1]) + [Up(p1)] == [Down(p0), Move(p1), Up(p1)];
  }

  /** The buffer log entry at position `i`, read off the invariant. */
  lemma BufferLogAt(calls: seq<BufferCall>, current: Option<Bitmap>, i: int)
    requires BufferLog(calls, current) && 0 <= i < |calls|
    ensures i % 2 == 0 <==> calls[i].Allocate?
    ensures i % 2 == 0 ==> calls[i].bitmap.id == i
    ensures i % 2 == 1 ==> calls[i] == Recycle(calls[i - 1].bitmap) && calls[i].bitmap.id == i - 1
    ensures current.Some? ==> |calls| % 2 == 1
  {
  }

  /** The buffer a resize allocates is new: no earlier call names it. */
  lemma ResizeAllocatesFreshBuffer(s: ViewState, w: int, h: int)
    requires Valid(s) && w > 0 && h > 0
    ensures var b := OnSizeChanged(s, w, h).extraBitmap.value;
            forall i :: 0 <= i < |s.bufferCalls| ==> s.bufferCalls[i].bitmap.id < b.id
  {
    forall i | 0 <= i < |s.bufferCalls| ensures s.bufferCalls[i].bitmap.id <= i {
      BufferLogAt(s.bufferCalls, s.extraBitmap, i);
    }
  }

  /** No buffer leaks: every allocated buffer other than the current one has
      been recycled, and recycled right after, before the next allocation. */
  lemma NoBufferLeaks(s: ViewState)
    requires Valid(s)
    ensures forall i :: 0 <= i < |s.bufferCalls| && s.bufferCalls[i].Allocate? && Some(s.bufferCalls[i].bitmap) != s.extraBitmap ==>
              i + 1 < |s.bufferCalls| && s.bufferCalls[i + 1] == Recycle(s.bufferCalls[i].bitmap)
  {
    var calls := s.bufferCalls;
    forall i | 0 <= i < |calls| && calls[i].Allocate? && Some(calls[i].bitmap) != s.extraBitmap
      ensures i + 1 < |calls| && calls[i + 1] == Recycle(calls[i].bitmap)
    {
      BufferLogAt(calls, s.extraBitmap, i);
      assert i != |calls| - 1;
      assert (i + 1) % 2 == 1;
      BufferLogAt(calls, s.extraBitmap, i + 1);
    }
  }

  /** Resizing twice to the same size gives two distinct buffers, each one
      holding only the background fill; the first one is released before the
      second one is allocated. */
  lemma ResizeTwiceGivesFreshBuffers(s: ViewState, w: int, h: int)
    requires Valid(s) && w > 0 && h > 0
    ensures var r1 := OnSizeChanged(s, w, h);
            var r2 := OnSizeChanged(r1, w, h);
            && r1.cache == [Fill(BackgroundColor, w, h)]
            && r2.cache == [Fill(BackgroundColor, w, h)]
            && r1.extraBitmap != r2.extraBitmap
            && r2.bufferCalls == r1.bufferCalls + [Recycle(r1.extraBitmap.value), Allocate(r2.extraBitmap.value)]
  {
  }

  /** A resize erases every stroke drawn before it, whatever touches came first. */
  lemma ResizeErasesStrokes(s: ViewState, events: seq<Option<MotionEvent>>, w: int, h: int)
    requires s.extraBitmap.Some? && w > 0 && h > 0
    ensures OnSizeChanged(Run(s, events), w, h).cache == [Fill(BackgroundColor, w, h)]
  {
  }
}
