/** The page's global state (static/script.js:17-33) and the handlers that change it: the
    finger-tip handler (lines 67-92), the voice commands (lines 400-474), one step of the
    drawing animation (line 461), the keyboard (lines 273-380), canvas clicks (lines
    383-397) and the buttons (lines 805-827).
    Each handler is a method of `Sketchpad` proved to leave the state a pure transition
    function gives; the facts about those functions are in sketchpad_facts.dfy. */
module Sketchpad {
  import opened JsNumbers
  import opened ExpressionText
  import opened Evaluator
  import EvaluatorImpl
  import opened Strokes
  import opened Templates
  import opened Playback

  const CanvasWidth: real := 640.0
  const CanvasHeight: real := 480.0
  /** `COMMAND_DEBOUNCE` (line 24), in milliseconds. */
  const CommandDebounce: int := 1000
  /** How far line 353 moves the text position down after Enter. */
  const LineSpacing: real := 40.0

  /** The globals the handlers read and write. */
  datatype Globals = Globals(
    drawing: bool,
    color: string,
    lastX: real,
    lastY: real,
    path: seq<Point>,
    aiDrawing: bool,
    generator: Generator,
    lastCommandTime: int,
    isTyping: bool,
    currentText: string,
    textX: real,
    textY: real)

  /** Lines 17-33. */
  const Initial: Globals :=
    Globals(false, "red", 0.0, 0.0, [], false, Idle, 0, false, "", 0.0, 0.0)

  // ---------------------------------------------------------------------------------
  // Command text

  /** Number of white-space characters at the start of `s`. */
  function LeadingSpace(s: string): (n: nat)
    ensures n <= |s|
    ensures forall k :: 0 <= k < n ==> IsWhiteSpace(s[k])
    ensures n < |s| ==> !IsWhiteSpace(s[n])
  {
    if s == [] || !IsWhiteSpace(s[0]) then 0 else 1 + LeadingSpace(s[1..])
  }

  /** Number of white-space characters at the end of `s`. */
  function TrailingSpace(s: string): (n: nat)
    ensures n <= |s|
    ensures forall k :: |s| - n <= k < |s| ==> IsWhiteSpace(s[k])
    ensures n < |s| ==> !IsWhiteSpace(s[|s| - n - 1])
  {
    if s == [] || !IsWhiteSpace(s[|s| - 1]) then 0 else 1 + TrailingSpace(s[..|s| - 1])
  }

  /** `String.prototype.trim`: the text between the white space at both ends. */
  function Trim(s: string): (r: string)
    ensures r == [] || (!IsWhiteSpace(r[0]) && !IsWhiteSpace(r[|r| - 1]))
    ensures exists i, j :: (0 <= i <= j <= |s| && r == s[i..j] &&
      (forall k :: 0 <= k < i ==> IsWhiteSpace(s[k])) && (forall k :: j <= k < |s| ==> IsWhiteSpace(s[k])))
  {
    var i := LeadingSpace(s);
    var t := s[i..];
    var j := |t| - TrailingSpace(t);
    assert t[..j] == s[i..i + j];
    assert t[..j] != [] ==> t[..j][0] == t[0];
    t[..j]
  }

  function LowerChar(c: char): char
  {
    if 'A' <= c <= 'Z' then (c as int - 'A' as int + 'a' as int) as char else c
  }

  /** `String.prototype.toLowerCase` on the letters A to Z. */
  function Lower(s: string): (r: string)
    ensures |r| == |s| && forall i :: 0 <= i < |s| ==> r[i] == LowerChar(s[i])
  {
    seq(|s|, i requires 0 <= i < |s| => LowerChar(s[i]))
  }

  // ---------------------------------------------------------------------------------
  // The transitions

  /** `checkForHeart`'s only effect on the state: a detected shape empties the buffer. */
  function AfterCheck(path: seq<Point>, color: string): seq<Point>
  {
    if Detect(path, color) == NoShape then path else []
  }

  /** Lines 74-91, for a frame with a hand whose finger tip is at `p` (already mirrored). */
  function FingerTip(g: Globals, p: Point): Globals
  {
    if g.drawing && !g.aiDrawing then
      var pushed := Push(g.path, p);
      var path := if |pushed| > MinStrokes then AfterCheck(pushed, g.color) else pushed;
      g.(path := path, lastX := p.x, lastY := p.y)
    else g.(lastX := p.x, lastY := p.y)
  }

  /** Lines 409-441: the fixed commands, each checked in turn. */
  function FixedCommands(g: Globals, command: string): Globals
  {
    var g1 := if command == "start drawing" then g.(drawing := true, isTyping := false) else g;
    var g2 := if command == "stop drawing" then g1.(drawing := false) else g1;
    var g3 := if command == "start typing" then g2.(isTyping := true, drawing := false) else g2;
    var g4 := if command == "stop typing" then g3.(isTyping := false, currentText := "") else g3;
    if command == "clear canvas" then g4.(path := []) else g4
  }

  /** Lines 444-473: "draw " and a template's name empties the buffer and starts playing
      that template with both flags set. */
  function DrawCommand(g: Globals, command: string): Globals
  {
    match Lookup(command)
    case Some(points) => g.(path := [], aiDrawing := true, drawing := true, generator := Start(points))
    case None => g
  }

  /** `recognition.onresult` (lines 400-474), `now` being `Date.now()` and `transcript` the
      last result. Taking a screenshot changes no state. */
  function Command(g: Globals, now: int, transcript: string): Globals
  {
    if now - g.lastCommandTime < CommandDebounce then g
    else
      var command := Lower(Trim(transcript));
      DrawCommand(FixedCommands(g.(lastCommandTime := now), command), command)
  }

  /** One `aiDrawingGenerator.next()` of the animation loop (line 461). */
  function Tick(g: Globals): (Globals, Yield)
    requires Started(g.generator)
  {
    var step := Step(g.generator);
    var g1 := g.(generator := step.0);
    (if step.1 == Returned then g1.(aiDrawing := false, drawing := false) else g1, step.1)
  }

  /** `/[\d+\-*\/^()]/.test(s)`. */
  predicate LooksLikeMath(s: string)
  {
    exists i :: 0 <= i < |s| && (IsDigit(s[i]) || s[i] in "+-*/^()")
  }

  /** The text lines 341-343 write for an evaluated line: the error message alone, or the
      line, " = " and the number. */
  function Caption(text: string, result: Outcome): string
  {
    match result
    case Failure(_) => Display(result)
    case Value(_) => text + " = " + Display(result)
  }

  /** The `keydown` listener (lines 273-380) for the key named `key`; the second component
      is the text Enter writes on the canvas, if any. */
  function Key(g: Globals, pow: Pow, key: string): (Globals, Option<string>)
  {
    if Lower(key) == "t" && !g.isTyping then
      (g.(isTyping := true, drawing := false, textX := CanvasWidth / 2.0, textY := CanvasHeight / 2.0), None)
    else if !g.isTyping then (g, None)
    else if key == "Escape" then (g.(isTyping := false, currentText := ""), None)
    else if key == "Backspace" then
      (if |g.currentText| > 0 then g.(currentText := g.currentText[..|g.currentText| - 1]) else g, None)
    else if key == "Enter" then Enter(g, pow)
    else if |key| == 1 then (g.(currentText := g.currentText + key), None)
    else (g, None)
  }

  /** Enter while typing (lines 323-363): a non-empty line is written, evaluated first when
      it looks like arithmetic, and the next line starts one line lower. */
  function Enter(g: Globals, pow: Pow): (Globals, Option<string>)
  {
    if |g.currentText| == 0 then (g, None)
    else
      var written :=
        if LooksLikeMath(g.currentText) then Caption(g.currentText, Evaluate(pow, g.currentText))
        else g.currentText;
      (g.(currentText := "", textY := g.textY + LineSpacing), Some(written))
  }

  /** The canvas `click` listener (lines 383-397) at offset (`x`, `y`). */
  function Click(g: Globals, x: real, y: real): Globals
  {
    if g.isTyping then g.(textX := x, textY := y, currentText := "") else g
  }

  // ---------------------------------------------------------------------------------
  // The page

  class Sketchpad {
    var drawing: bool
    var color: string
    var lastX: real
    var lastY: real
    var path: seq<Point>
    var aiDrawing: bool
    var generator: Generator
    var lastCommandTime: int
    var isTyping: bool
    var currentText: string
    var textX: real
    var textY: real

    function State(): Globals
      reads this
    {
      Globals.Globals(drawing, color, lastX, lastY, path, aiDrawing, generator,
        lastCommandTime, isTyping, currentText, textX, textY)
    }

    constructor()
      ensures State() == Initial
    {
      drawing := false;
      color := "red";
      lastX, lastY := 0.0, 0.0;
      path := [];
      aiDrawing := false;
      generator := Idle;
      lastCommandTime := 0;
      isTyping := false;
      currentText := "";
      textX, textY := 0.0, 0.0;
    }

    /** Lines 764-802. */
    method CheckForHeart()
      modifies this
      ensures State() == old(State()).(path := AfterCheck(old(path), old(color)))
    {
      if Detect(path, color) != NoShape {
        path := [];
      }
    }

    /** Lines 74-91: record the point while drawing by hand, then test the buffer. */
    method OnFingerTip(p: Point)
      modifies this
      ensures State() == FingerTip(old(State()), p)
    {
      if drawing && !aiDrawing {
        path := path + [p];
        if |path| > PathLimit {
          path := path[1..];
        }
        if |path| > MinStrokes {
          CheckForHeart();
        }
      }
      lastX := p.x;
      lastY := p.y;
    }

    /** Lines 400-474: the debounce, then the fixed commands, then the template names. */
    method OnVoiceCommand(now: int, transcript: string)
      modifies this
      ensures State() == Command(old(State()), now, transcript)
    {
      if now - lastCommandTime < CommandDebounce {
        return;
      }
      var command := Lower(Trim(transcript));
      lastCommandTime := now;
      RunFixedCommands(command);
      RunDrawCommand(command);
    }

    /** Lines 409-441. */
    method RunFixedCommands(command: string)
      modifies this
      ensures State() == FixedCommands(old(State()), command)
    {
      if command == "start drawing" {
        drawing := true;
        isTyping := false;
      }
      if command == "stop drawing" {
        drawing := false;
      }
      if command == "start typing" {
        isTyping := true;
        drawing := false;
      }
      if command == "stop typing" {
        isTyping := false;
        currentText := "";
      }
      if command == "clear canvas" {
        path := [];
      }
    }

    /** Lines 444-473: the template names in table order; the `break` after a match is the
        end of the handler. */
    method RunDrawCommand(command: string)
      modifies this
      ensures State() == DrawCommand(old(State()), command)
    {
      var k := 0;
      while k < |Table|
        invariant 0 <= k <= |Table|
        invariant FirstMatch(Table, command, k) == Lookup(command)
        invariant State() == old(State())
      {
        if command == "draw " + Table[k].name {
          path := [];
          aiDrawing := true;
          drawing := true;
          generator := Start(Table[k].points);
          return;
        }
        k := k + 1;
      }
    }

    /** One step of the drawing animation (line 461); `done` is the result's `done`. */
    method OnAnimationFrame() returns (y: Yield)
      requires Started(generator)
      modifies this
      ensures (State(), y) == Tick(old(State()))
    {
      match generator {
        case Playing(points, i) =>
          if i < |points| {
            generator := Playing(points, i + 1);
            y := Drew(Segment(points[i - 1], points[i]));
          } else {
            aiDrawing := false;
            drawing := false;
            generator := Finished;
            y := Returned;
          }
        case Finished =>
          y := AlreadyDone;
      }
    }

    /** Lines 273-380. */
    method OnKeydown(pow: Pow, key: string) returns (written: Option<string>)
      modifies this
      ensures (State(), written) == Key(old(State()), pow, key)
    {
      written := None;
      if Lower(key) == "t" && !isTyping {
        isTyping := true;
        drawing := false;
        textX := CanvasWidth / 2.0;
        textY := CanvasHeight / 2.0;
        return;
      }
      if isTyping {
        if key == "Escape" {
          isTyping := false;
          currentText := "";
          return;
        }
        if key == "Backspace" {
          if |currentText| > 0 {
            currentText := currentText[..|currentText| - 1];
          }
          return;
        }
        if key == "Enter" {
          written := OnEnter(pow);
          return;
        }
        if |key| == 1 {
          currentText := currentText + key;
        }
      }
    }

    /** Lines 323-363. */
    method OnEnter(pow: Pow) returns (written: Option<string>)
      modifies this
      ensures (State(), written) == Enter(old(State()), pow)
    {
      written := None;
      if |currentText| > 0 {
        if LooksLikeMath(currentText) {
          var result := EvaluatorImpl.EvaluateExpression(pow, currentText);
          written := Some(Caption(currentText, result));
        } else {
          written := Some(currentText);
        }
        currentText := "";
        textY := textY + LineSpacing;
      }
    }

    /** Lines 383-397. */
    method OnCanvasClick(x: real, y: real)
      modifies this
      ensures State() == Click(old(State()), x, y)
    {
      if isTyping {
        textX := x;
        textY := y;
        currentText := "";
      }
    }

    /** Lines 805-808. */
    method OnStartButton()
      modifies this
      ensures State() == old(State()).(drawing := true)
    {
      drawing := true;
    }

    /** Lines 809-812. */
    method OnStopButton()
      modifies this
      ensures State() == old(State()).(drawing := false)
    {
      drawing := false;
    }

    /** Lines 813-817. */
    method OnClearButton()
      modifies this
      ensures State() == old(State()).(path := [])
    {
      path := [];
    }

    /** Lines 820-827: the button's `data-color` becomes the drawing colour. */
    method OnColorButton(c: string)
      modifies this
      ensures State() == old(State()).(color := c)
    {
      color := c;
    }
  }
}
