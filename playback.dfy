/** The generator `drawObject` (static/script.js:747-762): each `next()` draws one segment
    of a template and pauses at the `yield`; the call after the last segment runs to the
    end of the body, which clears `aiDrawing` and `drawing`. */
module Playback {
  import opened Strokes

  datatype Segment = Segment(from: Point, to: Point)

  /** `aiDrawingGenerator`: null before any `draw` command, a generator paused with its loop
      index at `next`, or one that has returned. */
  datatype Generator = Idle | Playing(points: seq<Point>, next: nat) | Finished

  /** What one `next()` call does: draw a segment and yield; run to the end of the body,
      clearing both flags (`done` is true); or nothing, on a generator already returned. */
  datatype Yield = Drew(segment: Segment) | Returned | AlreadyDone
  {
    /** The `done` field of the object `next()` returns. */
    predicate Done() { !Drew? }
  }

  /** `drawObject(points)`: nothing of the body has run yet; the first `next()` starts the
      loop at index 1. */
  function Start(points: seq<Point>): Generator
  {
    Playing(points, 1)
  }

  /** The segments a template is drawn with: from each point to the one after it. */
  function Segments(points: seq<Point>): (r: seq<Segment>)
    ensures |r| == if |points| == 0 then 0 else |points| - 1
    ensures forall k :: 0 <= k < |r| ==> r[k] == Segment(points[k], points[k + 1])
  {
    if |points| < 2 then [] else [Segment(points[0], points[1])] + Segments(points[1..])
  }

  /** A generator that exists, with its loop index never below the 1 it starts from. */
  predicate Started(g: Generator)
  {
    !g.Idle? && (g.Playing? ==> g.next >= 1)
  }

  /** One `next()` call. */
  function Step(g: Generator): (r: (Generator, Yield))
    requires Started(g)
    ensures Started(r.0)
  {
    match g
    case Playing(points, i) =>
      if i < |points| then (Playing(points, i + 1), Drew(Segment(points[i - 1], points[i])))
      else (Finished, Returned)
    case Finished => (Finished, AlreadyDone)
  }

  /** `n` calls of `next()`: the generator after them and the segments they drew. */
  function Run(g: Generator, n: nat): (Generator, seq<Segment>)
    requires Started(g)
    decreases n
  {
    if n == 0 then (g, [])
    else
      var step := Step(g);
      var rest := Run(step.0, n - 1);
      (rest.0, (if step.1.Drew? then [step.1.segment] else []) + rest.1)
  }

  /** The `n` segments drawn from loop index `i` on: the one ending at each index. */
  function SegmentsFrom(points: seq<Point>, i: nat, n: nat): seq<Segment>
    requires 1 <= i && i + n <= |points|
    decreases n
  {
    if n == 0 then [] else [Segment(points[i - 1], points[i])] + SegmentsFrom(points, i + 1, n - 1)
  }

  /** From index `i` on, the segments drawn are a slice of the template's segments. */
  lemma {:induction false} SegmentsFromSlice(points: seq<Point>, i: nat, n: nat)
    requires 1 <= i && i + n <= |points|
    ensures SegmentsFrom(points, i, n) == Segments(points)[i - 1..i - 1 + n]
    decreases n
  {
    var s := Segments(points);
    if n > 0 {
      SegmentsFromSlice(points, i + 1, n - 1);
      assert s[i - 1] == Segment(points[i - 1], points[i]);
      SliceCons(s, i - 1, n);
    } else {
      assert s[i - 1..i - 1] == [];
    }
  }

  lemma SliceCons(s: seq<Segment>, k: nat, n: nat)
    requires 0 < n && k + n <= |s|
    ensures s[k..k + n] == [s[k]] + s[k + 1..k + n]
  {
  }

  /** Started at index 1, the segments drawn are all of the template's. */
  lemma SegmentsFromStart(points: seq<Point>)
    requires |points| > 0
    ensures SegmentsFrom(points, 1, |points| - 1) == Segments(points)
  {
    SegmentsFromSlice(points, 1, |points| - 1);
    assert Segments(points)[0..|points| - 1] == Segments(points);
  }

  /** While the loop index is inside the template, each call draws the segment ending at
      it and advances the index. */
  lemma {:induction false} RunWhilePlaying(points: seq<Point>, i: nat, n: nat)
    requires 1 <= i && i + n <= |points|
    ensures Run(Playing(points, i), n) == (Playing(points, i + n), SegmentsFrom(points, i, n))
    decreases n
  {
    if n > 0 {
      RunWhilePlaying(points, i + 1, n - 1);
    }
  }

  /** Playing a template of `len` points: the first `len - 1` calls draw the segments in
      order, one per call, with the generator still running; the `len`-th call is the one
      that returns and clears the flags; every later call does nothing. */
  lemma PlaybackDrawsEverySegmentOnce(points: seq<Point>)
    requires |points| > 0
    ensures Run(Start(points), |points| - 1) == (Playing(points, |points|), Segments(points))
    ensures Step(Playing(points, |points|)) == (Finished, Returned)
    ensures Step(Finished) == (Finished, AlreadyDone)
  {
    RunFromStart(points);
    StepAtEnd(points);
  }

  lemma RunFromStart(points: seq<Point>)
    requires |points| > 0
    ensures Run(Start(points), |points| - 1) == (Playing(points, |points|), Segments(points))
  {
    RunWhilePlaying(points, 1, |points| - 1);
    SegmentsFromStart(points);
  }

  lemma StepAtEnd(points: seq<Point>)
    requires |points| > 0
    ensures Step(Playing(points, |points|)) == (Finished, Returned)
  {
  }
}
