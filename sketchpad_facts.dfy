/** What the handlers of static/script.js promise about the page state, stated over the
    transitions of module `Sketchpad`. */
module SketchpadFacts {
  import opened JsNumbers
  import opened Evaluator
  import opened Strokes
  import opened Templates
  import opened Playback
  import opened Sketchpad

  // ---------------------------------------------------------------------------------
  // Events and the invariant they keep

  /** Everything that reaches the handlers: a camera frame with the finger tip at a point, a
      recognised phrase, a frame of the drawing animation, a key, a click on the canvas and
      the four kinds of button. */
  datatype Event =
    | FingerTipAt(p: Point)
    | Spoken(now: int, transcript: string)
    | AnimationFrame
    | KeyDown(key: string)
    | ClickAt(x: real, y: real)
    | StartButton
    | StopButton
    | ClearButton
    | ColorButton(c: string)

  /** The state after one event. No animation frame is scheduled before the first `draw`
      command, so a frame finds no generator to advance. */
  function Handle(g: Globals, pow: Pow, e: Event): Globals
  {
    match e
    case FingerTipAt(p) => FingerTip(g, p)
    case Spoken(now, transcript) => Command(g, now, transcript)
    case AnimationFrame => if Started(g.generator) then Tick(g).0 else g
    case KeyDown(key) => Key(g, pow, key).0
    case ClickAt(x, y) => Click(g, x, y)
    case StartButton => g.(drawing := true)
    case StopButton => g.(drawing := false)
    case ClearButton => g.(path := [])
    case ColorButton(c) => g.(color := c)
  }

  function Replay(g: Globals, pow: Pow, events: seq<Event>): Globals
    decreases |events|
  {
    if events == [] then g else Replay(Handle(g, pow, events[0]), pow, events[1..])
  }

  /** The buffer holds at most 50 points, `aiDrawing` is set exactly while a template is
      being played, and the played template's loop index stays within its points. */
  predicate Consistent(g: Globals)
  {
    && |g.path| <= PathLimit
    && (g.aiDrawing <==> g.generator.Playing?)
    && (g.generator.Playing? ==> 1 <= g.generator.next <= |g.generator.points|)
  }

  lemma FingerTipKeepsConsistent(g: Globals, p: Point)
    requires Consistent(g)
    ensures Consistent(FingerTip(g, p))
  {
    if g.drawing && !g.aiDrawing {
      assert |Push(g.path, p)| <= PathLimit;
    }
  }

  lemma CommandKeepsConsistent(g: Globals, now: int, transcript: string)
    requires Consistent(g)
    ensures Consistent(Command(g, now, transcript))
  {
    LookupHasSegments(Lower(Trim(transcript)));
  }

  lemma TickKeepsConsistent(g: Globals)
    requires Consistent(g) && !g.generator.Idle?
    ensures Consistent(Tick(g).0)
  {
  }

  /** Every event keeps the invariant. */
  lemma HandleKeepsConsistent(g: Globals, pow: Pow, e: Event)
    requires Consistent(g)
    ensures Consistent(Handle(g, pow, e))
  {
    match e
    case FingerTipAt(p) => FingerTipKeepsConsistent(g, p);
    case Spoken(now, transcript) => CommandKeepsConsistent(g, now, transcript);
    case AnimationFrame =>
      if Started(g.generator) {
        TickKeepsConsistent(g);
      }
    case _ =>
  }

  /** From page load, any sequence of events leaves the state consistent. */
  lemma {:induction false} ReplayKeepsConsistent(g: Globals, pow: Pow, events: seq<Event>)
    requires Consistent(g)
    ensures Consistent(Replay(g, pow, events))
    decreases |events|
  {
    if events != [] {
      HandleKeepsConsistent(g, pow, events[0]);
      ReplayKeepsConsistent(Handle(g, pow, events[0]), pow, events[1..]);
    }
  }

  lemma EveryRunIsConsistent(pow: Pow, events: seq<Event>)
    ensures Consistent(Initial)
    ensures Consistent(Replay(Initial, pow, events))
  {
    ReplayKeepsConsistent(Initial, pow, events);
  }

  // ---------------------------------------------------------------------------------
  // Drawing by hand

  /** Finger points while not drawing, or while a template is being played, move only the
      last position. */
  lemma FingerTipIgnoredUnlessDrawingByHand(g: Globals, p: Point)
    requires !g.drawing || g.aiDrawing
    ensures FingerTip(g, p) == g.(lastX := p.x, lastY := p.y)
  {
  }

  /** A stroke of `ps` drawn by hand, one frame per point. */
  function FingerTips(g: Globals, ps: seq<Point>): Globals
    decreases |ps|
  {
    if ps == [] then g else FingerTips(FingerTip(g, ps[0]), ps[1..])
  }

  /** In any colour but pink no shape is ever detected, so the buffer is exactly the last
      50 points drawn. */
  lemma {:induction false} HandStrokeKeepsRecentPoints(g: Globals, ps: seq<Point>)
    requires g.drawing && !g.aiDrawing && g.color != "pink" && |g.path| <= PathLimit
    ensures FingerTips(g, ps).path == Last(g.path + ps, PathLimit)
    ensures FingerTips(g, ps).drawing && !FingerTips(g, ps).aiDrawing
    decreases |ps|
  {
    if ps == [] {
      assert g.path + ps == g.path;
    } else {
      var h := g.(path := Push(g.path, ps[0]), lastX := ps[0].x, lastY := ps[0].y);
      FingerTipInOtherColours(g, ps[0]);
      HandStrokeKeepsRecentPoints(h, ps[1..]);
      PushThenRest(g.path, ps);
    }
  }

  lemma PushThenRest(path: seq<Point>, ps: seq<Point>)
    requires |path| <= PathLimit && ps != []
    ensures |Push(path, ps[0])| <= PathLimit
    ensures Last(Push(path, ps[0]) + ps[1..], PathLimit) == Last(path + ps, PathLimit)
  {
    LastAfterPush(path, ps[0], ps[1..]);
    assert path + [ps[0]] + ps[1..] == path + ps;
  }

  lemma FingerTipInOtherColours(g: Globals, p: Point)
    requires g.drawing && !g.aiDrawing && g.color != "pink"
    ensures FingerTip(g, p) == g.(path := Push(g.path, p), lastX := p.x, lastY := p.y)
  {
    OnlyPinkIsDetected(Push(g.path, p), g.color);
  }

  /** Up to 30 points the classifier is not consulted: the point is simply appended. */
  lemma ShortBufferOnlyGrows(g: Globals, p: Point)
    requires g.drawing && !g.aiDrawing && |g.path| < MinStrokes
    ensures FingerTip(g, p).path == g.path + [p]
  {
    assert Last(g.path + [p], PathLimit) == g.path + [p];
  }

  /** Past 30 points the buffer is emptied exactly when the classifier sees a shape in it. */
  lemma ShapeEmptiesBuffer(g: Globals, p: Point)
    requires g.drawing && !g.aiDrawing && |g.path| <= PathLimit
    requires |Last(g.path + [p], PathLimit)| > MinStrokes
    ensures FingerTip(g, p).path == [] <==> Detect(Last(g.path + [p], PathLimit), g.color) != NoShape
  {
  }

  // ---------------------------------------------------------------------------------
  // Voice commands

  /** Within a second of the last accepted command every phrase is dropped. */
  lemma CommandDebounced(g: Globals, now: int, transcript: string)
    requires now < g.lastCommandTime + CommandDebounce
    ensures Command(g, now, transcript) == g
  {
  }

  /** A phrase that is no command is still accepted: it only restarts the debounce window. */
  lemma UnknownCommandOnlyStamps(g: Globals, now: int, transcript: string)
    requires now >= g.lastCommandTime + CommandDebounce
    requires Lower(Trim(transcript)) !in {"start drawing", "stop drawing", "start typing", "stop typing", "clear canvas"}
    requires Lookup(Lower(Trim(transcript))).None?
    ensures Command(g, now, transcript) == g.(lastCommandTime := now)
  {
  }

  /** Drawing and typing exclude each other after the voice commands that select them. */
  lemma ModeCommands(g: Globals, now: int, transcript: string)
    requires now >= g.lastCommandTime + CommandDebounce
    ensures Lower(Trim(transcript)) == "start drawing" ==>
      Command(g, now, transcript).drawing && !Command(g, now, transcript).isTyping
    ensures Lower(Trim(transcript)) == "start typing" ==>
      !Command(g, now, transcript).drawing && Command(g, now, transcript).isTyping
    ensures Lower(Trim(transcript)) == "stop typing" ==>
      !Command(g, now, transcript).isTyping && Command(g, now, transcript).currentText == ""
  {
    var command := Lower(Trim(transcript));
    if command == "start drawing" || command == "start typing" || command == "stop typing" {
      assert command[..5] != "draw ";
      NoDrawCommand(command);
    }
  }

  lemma NoDrawCommand(command: string)
    requires |command| < 5 || command[..5] != "draw "
    ensures Lookup(command).None?
  {
    forall k | 0 <= k < |Table|
      ensures command != "draw " + Table[k].name
    {
      assert ("draw " + Table[k].name)[..5] == "draw ";
    }
  }

  /** `draw <name>` empties the buffer, raises both flags and starts playing the template
      from its first point; the typing state and the colour stay as they were. */
  lemma DrawCommandStartsPlayback(g: Globals, now: int, transcript: string, points: seq<Point>)
    requires now >= g.lastCommandTime + CommandDebounce
    requires Lookup(Lower(Trim(transcript))) == Some(points)
    ensures Command(g, now, transcript) ==
      g.(lastCommandTime := now, path := [], aiDrawing := true, drawing := true, generator := Start(points))
  {
    var command := Lower(Trim(transcript));
    var k :| 0 <= k < |Table| && command == "draw " + Table[k].name;
    assert command[..5] == "draw ";
  }

  /** Any other phrase leaves a playing template alone. */
  lemma OtherCommandsKeepPlayback(g: Globals, now: int, transcript: string)
    requires Lookup(Lower(Trim(transcript))).None?
    ensures Command(g, now, transcript).generator == g.generator
    ensures Command(g, now, transcript).aiDrawing == g.aiDrawing
  {
  }

  /** A spoken command with surrounding blanks and capitals is recognised. */
  lemma SpokenDrawCircle(g: Globals, now: int)
    requires now >= g.lastCommandTime + CommandDebounce
    ensures Command(g, now, " Draw Circle ").generator == Start(Table[0].points)
  {
    SpokenDrawCircleText();
    LookupExamples();
    DrawCommandStartsPlayback(g, now, " Draw Circle ", Table[0].points);
  }

  lemma SpokenDrawCircleText()
    ensures Lower(Trim(" Draw Circle ")) == "draw circle"
  {
    TrimDrawCircle(" Draw Circle ");
    LowerDrawCircle("Draw Circle");
  }

  lemma TrimDrawCircle(s: string)
    requires s == " Draw Circle "
    ensures Trim(s) == "Draw Circle"
  {
    var t := "Draw Circle ";
    assert LeadingSpace(s) == 1 by {
      assert s[1..] == t;
      assert LeadingSpace(t) == 0;
    }
    assert s[1..] == t;
    assert TrailingSpace(t) == 1 by {
      assert t[..11] == "Draw Circle";
      assert TrailingSpace("Draw Circle") == 0;
    }
    assert t[..11] == "Draw Circle";
  }

  lemma LowerDrawCircle(s: string)
    requires s == "Draw Circle"
    ensures Lower(s) == "draw circle"
  {
  }

  // ---------------------------------------------------------------------------------
  // Playing a template

  /** `n` frames of the drawing animation: the state after them and the segments drawn. */
  function Ticks(g: Globals, n: nat): (Globals, seq<Segment>)
    requires Started(g.generator)
    decreases n
  {
    if n == 0 then (g, [])
    else
      var t := Tick(g);
      var rest := Ticks(t.0, n - 1);
      (rest.0, (if t.1.Drew? then [t.1.segment] else []) + rest.1)
  }

  lemma {:induction false} TicksWhilePlaying(g: Globals, points: seq<Point>, i: nat, n: nat)
    requires g.generator == Playing(points, i) && 1 <= i && i + n <= |points|
    ensures Ticks(g, n) == (g.(generator := Playing(points, i + n)), SegmentsFrom(points, i, n))
    decreases n
  {
    if n > 0 {
      var h := g.(generator := Playing(points, i + 1));
      assert Tick(g) == (h, Drew(Segment(points[i - 1], points[i])));
      TicksWhilePlaying(h, points, i + 1, n - 1);
    }
  }

  /** Once a template is started with both flags raised, the frames draw its segments in
      order with the flags still raised, the next frame lowers both flags, and hand
      points are ignored meanwhile. */
  lemma PlaybackFromStart(h: Globals, points: seq<Point>)
    requires h.generator == Start(points) && h.aiDrawing && h.drawing && |points| >= 1
    ensures var played := Ticks(h, |points| - 1);
      && played.1 == Segments(points)
      && played.0 == h.(generator := Playing(points, |points|))
      && (forall p :: FingerTip(played.0, p).path == h.path)
      && Tick(played.0) == (h.(generator := Finished, aiDrawing := false, drawing := false), Returned)
  {
    TicksWhilePlaying(h, points, 1, |points| - 1);
    SegmentsFromStart(points);
  }

  /** `draw <name>` followed by the animation frames draws exactly the template's
      segments, from an emptied buffer that hand points cannot refill, and then ends
      playback. */
  lemma DrawCommandPlaysTemplate(g: Globals, now: int, transcript: string, points: seq<Point>)
    requires now >= g.lastCommandTime + CommandDebounce
    requires Lookup(Lower(Trim(transcript))) == Some(points)
    ensures |points| >= 4
    ensures var h := Command(g, now, transcript);
      var played := Ticks(h, |points| - 1);
      && played.1 == Segments(points)
      && played.0.generator == Playing(points, |points|)
      && played.0.aiDrawing && played.0.drawing
      && (forall p :: FingerTip(played.0, p).path == [])
      && Tick(played.0).1 == Returned && !Tick(played.0).0.aiDrawing && !Tick(played.0).0.drawing
  {
    DrawCommandStartsPlayback(g, now, transcript, points);
    LookupHasSegments(Lower(Trim(transcript)));
    PlaybackFromStart(Command(g, now, transcript), points);
  }

  // ---------------------------------------------------------------------------------
  // The keyboard

  /** T (either case) outside typing mode enters it at the canvas centre and stops drawing. */
  lemma KeyTEntersTyping(g: Globals, pow: Pow, key: string)
    requires !g.isTyping && (key == "t" || key == "T")
    ensures Key(g, pow, key) ==
      (g.(isTyping := true, drawing := false, textX := 320.0, textY := 240.0), None)
  {
    assert Lower(key) == "t";
  }

  /** Outside typing mode every other key is ignored. */
  lemma KeysIgnoredOutsideTyping(g: Globals, pow: Pow, key: string)
    requires !g.isTyping && Lower(key) != "t"
    ensures Key(g, pow, key) == (g, None)
  {
  }

  /** Typing `s` one character at a time. */
  function TypeAll(g: Globals, pow: Pow, s: string): Globals
    decreases |s|
  {
    if s == [] then g else TypeAll(Key(g, pow, [s[0]]).0, pow, s[1..])
  }

  /** In typing mode every character key, `t` included, is appended to the line. */
  lemma {:induction false} TypingAppends(g: Globals, pow: Pow, s: string)
    requires g.isTyping
    ensures TypeAll(g, pow, s) == g.(currentText := g.currentText + s)
    decreases |s|
  {
    if s != [] {
      var c := [s[0]];
      assert c != "Escape" && c != "Backspace" && c != "Enter";
      assert Key(g, pow, c).0 == g.(currentText := g.currentText + c);
      TypingAppends(g.(currentText := g.currentText + c), pow, s[1..]);
      assert g.currentText + c + s[1..] == g.currentText + s;
    }
  }

  /** Backspace undoes the character just typed. */
  lemma BackspaceUndoesKey(g: Globals, pow: Pow, key: string)
    requires g.isTyping && |key| == 1
    ensures Key(Key(g, pow, key).0, pow, "Backspace") == (g, None)
  {
    assert key != "Escape" && key != "Backspace" && key != "Enter";
    var h := Key(g, pow, key).0;
    assert h == g.(currentText := g.currentText + key);
    assert h.currentText[..|h.currentText| - 1] == g.currentText;
  }

  /** Escape leaves typing mode and forgets the line. */
  lemma EscapeLeavesTyping(g: Globals, pow: Pow)
    requires g.isTyping
    ensures Key(g, pow, "Escape") == (g.(isTyping := false, currentText := ""), None)
  {
    assert Lower("Escape") != "t";
  }

  /** Enter on a non-empty line writes it, evaluated when it holds a digit, an operator or a
      parenthesis, then starts an empty line 40 pixels lower; on an empty line it does
      nothing. */
  lemma EnterWritesLine(g: Globals, pow: Pow)
    requires g.isTyping
    ensures g.currentText == [] ==> Key(g, pow, "Enter") == (g, None)
    ensures g.currentText != [] ==>
      Key(g, pow, "Enter").0 == g.(currentText := "", textY := g.textY + 40.0)
    ensures g.currentText != [] && !LooksLikeMath(g.currentText) ==>
      Key(g, pow, "Enter").1 == Some(g.currentText)
    ensures g.currentText != [] && LooksLikeMath(g.currentText) ==>
      match Evaluate(pow, g.currentText)
      case Value(v) => Key(g, pow, "Enter").1 == Some(g.currentText + " = " + Display(Value(v)))
      case Failure(e) => Key(g, pow, "Enter").1 == Some(Display(Failure(e)))
  {
    assert Lower("Enter") != "t";
  }

  /** A click in typing mode moves the insertion point there and starts an empty line;
      otherwise it does nothing. */
  lemma ClickPlacesText(g: Globals, x: real, y: real)
    ensures g.isTyping ==> Click(g, x, y) == g.(textX := x, textY := y, currentText := "")
    ensures !g.isTyping ==> Click(g, x, y) == g
  {
  }
}
