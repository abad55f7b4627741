/** The stroke buffer `path` fed by the finger-tip handler (static/script.js:84-87) and the
    shape test `checkForHeart` (static/script.js:764-802). */
module Strokes {
  import opened JsNumbers

  /** A finger-tip position in canvas pixels. */
  datatype Point = Point(x: real, y: real)

  /** Longest the buffer gets (line 85). */
  const PathLimit: nat := 50
  /** Fewest points the shape test looks at (lines 87 and 765). */
  const MinStrokes: nat := 30

  // ---------------------------------------------------------------------------------
  // The buffer

  /** Lines 84-85: `path.push(p)`, then `path.shift()` when it has grown past the limit. */
  function Push(path: seq<Point>, p: Point): (r: seq<Point>)
    ensures |path| <= PathLimit ==> r == Last(path + [p], PathLimit)
    ensures |r| > 0 && r[|r| - 1] == p
  {
    var grown := path + [p];
    if |grown| > PathLimit then grown[1..] else grown
  }

  /** The points pushed one after the other. */
  function PushAll(path: seq<Point>, ps: seq<Point>): seq<Point>
    decreases |ps|
  {
    if ps == [] then path else PushAll(Push(path, ps[0]), ps[1..])
  }

  /** The last `n` elements of `s`, or all of them when there are fewer. */
  function Last(s: seq<Point>, n: nat): (r: seq<Point>)
    ensures |r| == if |s| < n then |s| else n
  {
    if |s| <= n then s else s[|s| - n..]
  }

  lemma LastAfterPush(path: seq<Point>, p: Point, rest: seq<Point>)
    requires |path| <= PathLimit
    ensures Last(Push(path, p) + rest, PathLimit) == Last(path + [p] + rest, PathLimit)
  {
    if |path + [p]| > PathLimit {
      var s := path + [p] + rest;
      assert Push(path, p) + rest == s[1..];
    }
  }

  /** However many points are pushed, the buffer holds the most recent ones, at most 50 of
      them, in the order they came. */
  lemma {:induction false} PushesKeepRecent(path: seq<Point>, ps: seq<Point>)
    requires |path| <= PathLimit
    ensures PushAll(path, ps) == Last(path + ps, PathLimit)
    decreases |ps|
  {
    if ps == [] {
      assert path + ps == path;
    } else {
      PushesKeepRecent(Push(path, ps[0]), ps[1..]);
      LastAfterPush(path, ps[0], ps[1..]);
      assert path + [ps[0]] + ps[1..] == path + ps;
    }
  }

  // ---------------------------------------------------------------------------------
  // Lines 767-773: the bounding box

  function Xs(path: seq<Point>): (r: seq<real>)
    ensures |r| == |path| && forall i :: 0 <= i < |path| ==> r[i] == path[i].x
  {
    seq(|path|, i requires 0 <= i < |path| => path[i].x)
  }

  function Ys(path: seq<Point>): (r: seq<real>)
    ensures |r| == |path| && forall i :: 0 <= i < |path| ==> r[i] == path[i].y
  {
    seq(|path|, i requires 0 <= i < |path| => path[i].y)
  }

  /** `Math.min(...s)` on a nonempty list. */
  function Min(s: seq<real>): (m: real)
    requires s != []
    ensures forall i :: 0 <= i < |s| ==> m <= s[i]
    ensures exists i :: 0 <= i < |s| && s[i] == m
  {
    if |s| == 1 then s[0]
    else
      var rest := Min(s[1..]);
      assert forall i :: 1 <= i < |s| ==> s[i] == s[1..][i - 1];
      if s[0] <= rest then s[0] else rest
  }

  /** `Math.max(...s)` on a nonempty list. */
  function Max(s: seq<real>): (m: real)
    requires s != []
    ensures forall i :: 0 <= i < |s| ==> s[i] <= m
    ensures exists i :: 0 <= i < |s| && s[i] == m
  {
    if |s| == 1 then s[0]
    else
      var rest := Max(s[1..]);
      assert forall i :: 1 <= i < |s| ==> s[i] == s[1..][i - 1];
      if s[0] >= rest then s[0] else rest
  }

  /** `minX`, `maxX`, `minY` and `maxY` of lines 767-770. */
  datatype Box = Box(minX: real, maxX: real, minY: real, maxY: real)
  {
    function Width(): real { maxX - minX }
    function Height(): real { maxY - minY }
  }

  function BoundingBox(path: seq<Point>): (b: Box)
    requires path != []
    ensures forall p :: p in path ==> b.minX <= p.x <= b.maxX && b.minY <= p.y <= b.maxY
    ensures exists p :: p in path && p.x == b.minX
    ensures exists p :: p in path && p.x == b.maxX
    ensures exists p :: p in path && p.y == b.minY
    ensures exists p :: p in path && p.y == b.maxY
  {
    var xs, ys := Xs(path), Ys(path);
    var b := Box(Min(xs), Max(xs), Min(ys), Max(ys));
    assert forall i :: 0 <= i < |path| ==> b.minX <= path[i].x <= b.maxX && b.minY <= path[i].y <= b.maxY;
    var i1 :| 0 <= i1 < |xs| && xs[i1] == b.minX;
    var i2 :| 0 <= i2 < |xs| && xs[i2] == b.maxX;
    var i3 :| 0 <= i3 < |ys| && ys[i3] == b.minY;
    var i4 :| 0 <= i4 < |ys| && ys[i4] == b.maxY;
    assert path[i1] in path && path[i2] in path && path[i3] in path && path[i4] in path;
    b
  }

  // ---------------------------------------------------------------------------------
  // The comparisons of lines 779 and 787, on `width / height` as JavaScript divides

  /** `a >= b` for a JavaScript number `a`: false for NaN. */
  predicate AtLeast(a: JsNum, b: real)
  {
    match a
    case Finite(v) => v >= b
    case NaN => false
    case Infinity(negative) => !negative
  }

  /** `a <= b` for a JavaScript number `a`: false for NaN. */
  predicate AtMost(a: JsNum, b: real)
  {
    match a
    case Finite(v) => v <= b
    case NaN => false
    case Infinity(negative) => negative
  }

  /** `aspectRatio >= lo && aspectRatio <= hi && width >= 30 && height >= 30`. */
  predicate AspectWithin(width: real, height: real, lo: real, hi: real)
  {
    var aspect := Divide(Finite(width), Finite(height));
    AtLeast(aspect, lo) && AtMost(aspect, hi) && width >= 30.0 && height >= 30.0
  }

  /** With both sides at least 30 the ratio is an ordinary quotient, and a zero or short
      height fails the test whatever the ratio: testing the sides first is the same test. */
  lemma AspectWithinIff(width: real, height: real, lo: real, hi: real)
    requires 0.0 <= lo <= hi
    ensures AspectWithin(width, height, lo, hi) <==>
      width >= 30.0 && height >= 30.0 && lo <= width / height <= hi
  {
  }

  // ---------------------------------------------------------------------------------
  // Lines 788-795: the two further tests for a heart

  /** `path.filter(p => p.x < c).length`. */
  function CountLeftOf(path: seq<Point>, c: real): (n: nat)
    ensures n <= |path|
  {
    if path == [] then 0 else (if path[0].x < c then 1 else 0) + CountLeftOf(path[1..], c)
  }

  /** `path.filter(p => p.x > c).length`. */
  function CountRightOf(path: seq<Point>, c: real): (n: nat)
    ensures n <= |path|
  {
    if path == [] then 0 else (if path[0].x > c then 1 else 0) + CountRightOf(path[1..], c)
  }

  /** `path.reduce((a, b) => (a.y > b.y ? a : b))`: the fold starts at the first point and
      keeps the current point only while it lies strictly lower than the next one. */
  function Lowest(acc: Point, rest: seq<Point>): Point
    decreases |rest|
  {
    if rest == [] then acc else Lowest(if acc.y > rest[0].y then acc else rest[0], rest[1..])
  }

  function Bottom(path: seq<Point>): Point
    requires path != []
  {
    Lowest(path[0], path[1..])
  }

  // ---------------------------------------------------------------------------------
  // Lines 764-802

  datatype Shape = NoShape | Circle | Heart

  /** What `checkForHeart` detects; on `Circle` or `Heart` it plays the sound and empties the
      buffer, on `NoShape` it leaves everything as it was. */
  function Detect(path: seq<Point>, color: string): Shape
  {
    if |path| < MinStrokes then NoShape
    else
      var box := BoundingBox(path);
      if color != "pink" then NoShape
      else if AspectWithin(box.Width(), box.Height(), 0.8, 1.2) then Circle
      else if AspectWithin(box.Width(), box.Height(), 0.4, 1.7) then HeartTests(path, box)
      else NoShape
  }

  /** Only a pink stroke of at least 30 points is ever recognised. */
  lemma OnlyPinkIsDetected(path: seq<Point>, color: string)
    ensures Detect(path, color) != NoShape ==> color == "pink" && |path| >= MinStrokes
  {
  }

  /** Lines 788-799, once the ratio is in the heart range. */
  function HeartTests(path: seq<Point>, box: Box): Shape
    requires path != []
  {
    var centerX := (box.minX + box.maxX) / 2.0;
    var left, right := CountLeftOf(path, centerX), CountRightOf(path, centerX);
    if left - right > 50 || right - left > 50 then NoShape
    else if Bottom(path).y < box.maxY - 25.0 then NoShape
    else Heart
  }

  // ---------------------------------------------------------------------------------
  // What the test decides

  lemma {:induction false} CountsFit(path: seq<Point>, c: real)
    ensures CountLeftOf(path, c) + CountRightOf(path, c) <= |path|
  {
    if path != [] {
      CountsFit(path[1..], c);
    }
  }

  /** The balance test of line 792 never rejects: at most 50 points lie on either side. */
  lemma SidesNeverTooUneven(path: seq<Point>, c: real)
    requires |path| <= PathLimit
    ensures -50 <= CountLeftOf(path, c) - CountRightOf(path, c) <= 50
  {
    CountsFit(path, c);
  }

  lemma {:induction false} LowestIsLowest(acc: Point, rest: seq<Point>)
    ensures rest == [] ==> Lowest(acc, rest).y == acc.y
    ensures rest != [] ==> Lowest(acc, rest).y == (if acc.y >= Max(Ys(rest)) then acc.y else Max(Ys(rest)))
    decreases |rest|
  {
    if rest != [] {
      var next := if acc.y > rest[0].y then acc else rest[0];
      LowestIsLowest(next, rest[1..]);
      if |rest| > 1 {
        assert Ys(rest)[1..] == Ys(rest[1..]);
      }
    }
  }

  /** The point the reduction picks lies exactly at the bottom edge of the box, so the test of
      line 795 never rejects. */
  lemma BottomIsAtMaxY(path: seq<Point>)
    requires path != []
    ensures Bottom(path).y == BoundingBox(path).maxY
  {
    LowestIsLowest(path[0], path[1..]);
    if |path| > 1 {
      assert Ys(path)[1..] == Ys(path[1..]);
    }
  }

  /** Both further heart tests pass on every buffer the handler can hold. */
  lemma HeartTestsPass(path: seq<Point>)
    requires 0 < |path| <= PathLimit
    ensures HeartTests(path, BoundingBox(path)) == Heart
  {
    var box := BoundingBox(path);
    SidesNeverTooUneven(path, (box.minX + box.maxX) / 2.0);
    BottomIsAtMaxY(path);
  }

  /** With the buffer at most 50 long, a pink trace of at least 30 points is a circle exactly
      when both sides of its box are at least 30 and their ratio lies in [0.8, 1.2]. */
  lemma CircleIff(path: seq<Point>, color: string)
    requires 0 < |path| <= PathLimit
    ensures var box := BoundingBox(path);
      var w, h := box.Width(), box.Height();
      Detect(path, color) == Circle <==>
        color == "pink" && |path| >= MinStrokes && w >= 30.0 && h >= 30.0 && 0.8 <= w / h <= 1.2
  {
    var box := BoundingBox(path);
    AspectWithinIff(box.Width(), box.Height(), 0.8, 1.2);
  }

  /** ... and a heart exactly when the ratio lies in [0.4, 1.7] but outside the circle range:
      the circle is checked first, and the two further heart tests never reject. */
  lemma HeartIff(path: seq<Point>, color: string)
    requires 0 < |path| <= PathLimit
    ensures var box := BoundingBox(path);
      var w, h := box.Width(), box.Height();
      Detect(path, color) == Heart <==>
        color == "pink" && |path| >= MinStrokes && w >= 30.0 && h >= 30.0 &&
        0.4 <= w / h <= 1.7 && !(0.8 <= w / h <= 1.2)
  {
    var box := BoundingBox(path);
    AspectWithinIff(box.Width(), box.Height(), 0.8, 1.2);
    AspectWithinIff(box.Width(), box.Height(), 0.4, 1.7);
    HeartTestsPass(path);
  }
}
