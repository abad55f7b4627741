# Air-drawing sketchpad: a Dafny model of its page logic

The sketchpad is a web page. The camera tracks the tip of the index finger, which draws
on a canvas. Spoken commands switch modes, clear the canvas and play built-in drawings.
Typed text is written on the canvas, and a typed line that looks like arithmetic is
evaluated first. All of this logic lives in `static/script.js`. This project models its
core:

- **The expression evaluator `evaluateExpression`** (lines 150-270).
  - Input checks: white space is stripped, then the text is checked for emptiness and
    for characters outside the permitted set.
  - The text is split into operator and number tokens.
  - A parenthesis counter rejects unbalanced input.
  - A loop evaluates the innermost parenthesised group recursively and splices its
    printed result back in.
  - Two index-rewinding passes handle `^`, then `*` and `/`.
  - A left fold handles `+` and `-`.
  - The result is checked and rounded to three decimals.
  - Every thrown error becomes the string `"Error: " + message`.
  - Modules: `Evaluator` specifies it stage by stage as functions. `EvaluatorImpl`
    holds the loops as methods, each proved equal to its stage. `EvaluatorFacts` and
    `EvaluatorExamples` prove what the evaluator does.
  - `JsNumbers` holds the parts of JavaScript numbers it relies on: `parseFloat`,
    `toString` of a rounded result and `Math.round`. `ExpressionText` holds the
    character-level steps.
- **The stroke buffer and the shape test** (module `Strokes`).
  - The finger-tip handler pushes each point onto `path` and keeps at most the last 50.
  - `checkForHeart` recognises a pink circle or heart from the stroke's bounding box
    and empties the buffer when it does.
- **Template playback.**
  - `Templates`: the 23 `aiDrawingTemplates` and the `draw <name>` lookup.
  - `Playback`: the generator `drawObject`, which draws one segment per `next()` call
    and clears the drawing flags when it returns.
- **The page state and its handlers** (module `Sketchpad`).
  - Class `Sketchpad` holds the globals of lines 17-33.
  - Each event handler is a method: camera frame, voice command, animation frame,
    keydown, canvas click and the buttons. Each method is proved to produce the state
    given by a pure transition function.
  - `SketchpadFacts` proves what those transitions promise. This includes an invariant
    kept by every sequence of events: the buffer holds at most 50 points, and
    `aiDrawing` is set exactly while a template plays.

Behaviours of the source that the proofs bring out:

- **The "Mismatched parentheses" error can never occur** (`EvaluatorFacts.NeverMismatched`).
  The balance check runs before the loop and rejects every input on which the loop
  would throw it.
- **An error inside a group never reaches the caller as that error**
  (`EvaluatorExamples.ErrorInsideGroup`).
  - The group's error string is spliced in as a token and is read as NaN.
  - So `2*(5/0)` reports invalid operands for multiplication, not division by zero.
- **A doubled pair of brackets around a negative result fails**
  (`EvaluatorExamples.DoubledBracketsAroundNegative`).
  - The inner group prints `-3`. The outer group evaluates that again on its own, and
    a text that starts with `-` fails with "Expression must start with a number".
- **Adjacent groups are not multiplied** (`EvaluatorExamples.AdjacentGroups`,
  `EvaluatorFacts.FoldStopsAtText`).
  - `(2)(3)` resolves to the tokens `2` and `3`. The `3` sits where an operator should
    be, so the result is "Invalid operator: 3".
- **"Invalid operator" arises only next to a group** (`Evaluator.ParenFreeNeverInvalidOperator`).
  - In a text without parentheses, an operator stands between any two operands, and the
    reductions keep it so. The fold therefore finds an operator in every slot it reaches.
  - Only a group replaced by its value can put two operands side by side, as in `(2)(3)`.
- **Rounding happens at every group** (`EvaluatorExamples.BracketsChangeTheAnswer`).
  - Each group's result is rounded before it is reused, so `(1/3)*3` gives 0.999 while
    `1/3*3` gives 1.
- **Two of the heart tests never reject** (`Strokes.SidesNeverTooUneven`,
  `Strokes.BottomIsAtMaxY`, `Strokes.HeartIff`).
  - The left/right balance test cannot fail, because the buffer never holds more than
    50 points.
  - The bottom-point test cannot fail, because the point it picks always lies on the
    bottom edge of the bounding box.
  - So a heart is any pink trace of at least 30 points whose width and height are both
    at least 30 and whose aspect ratio lies in [0.4, 1.7] but outside the circle range
    [0.8, 1.2].

Inputs from the outside world are parameters of the model:

- the finger-tip position, already scaled and mirrored;
- the speech transcript;
- `Date.now()`;
- the key name;
- the click offset;
- the colour of a colour button;
- `Math.pow`, an uninterpreted function `Pow`.

## Model

| member | source | states |
|---|---|---|
| JsNumbers.DigitRun | static/script.js:224 | the number of leading characters that are digits: all of them are digits, and the next one is not |
| JsNumbers.ParseUnsigned | static/script.js:224 | `parseFloat` of an unsigned text is NaN exactly when the text does not start with a digit, or with a point followed by a digit; otherwise it is a non-negative finite number |
| JsNumbers.PointFraction | static/script.js:224 | the value of the digits after a decimal point lies in [0, 1) |
| JsNumbers.ParseFloat | static/script.js:224 | `parseFloat` never yields Infinity on these texts, and a text starting with anything other than a digit, a sign or a point is NaN |
| JsNumbers.NatText | static/script.js:216 | the decimal digits of a natural number denote that number |
| JsNumbers.DecimalText | static/script.js:216 | the printed form of a rounded result holds only digits, '-' and '.', and starts with a digit or '-' |
| JsNumbers.DecimalTextRoundTrip | static/script.js:213-216 | printing a rounded result and parsing it back gives the same number, so a spliced group result is read back unchanged |
| JsNumbers.UnsignedTextValue | static/script.js:216 | the unsigned text of k/1000 parses to k/1000 |
| JsNumbers.ParseDigits | static/script.js:224 | a run of digits parses as the integer it denotes |
| JsNumbers.ParseDigitsAndFraction | static/script.js:224 | digits, a point and more digits parse as the integer part plus the fraction |
| JsNumbers.ParseWithPoint | static/script.js:224 | `parseFloat` stops after the first run of digits that follows a point |
| JsNumbers.ParseSigned | static/script.js:224 | a leading '-' negates the parsed value |
| JsNumbers.Round3 | static/script.js:264 | `Math.round(r * 1000) / 1000` is a multiple of 1/1000 within half a thousandth of r, rounding halves up |
| JsNumbers.RoundingIsUnique | static/script.js:264 | these two facts determine the rounded value |
| JsNumbers.FractionTextValue | static/script.js:216 | the printed fraction of f thousandths parses back to f/1000 |
| ExpressionText.StripWhiteSpace | static/script.js:155 | removing white space keeps exactly the characters that are not white space, and never lengthens the text |
| ExpressionText.StripOne | static/script.js:155 | a single character is dropped exactly when it is white space |
| ExpressionText.StripAppend | static/script.js:155 | white space is removed from a concatenation piece by piece, so the characters kept stay in their order |
| ExpressionText.AllPermittedIff | static/script.js:162 | the permitted-characters test holds exactly when every character is a digit, an operator, a parenthesis or '.' |
| ExpressionText.RunLength | static/script.js:194 | the run before the next separator holds no separator |
| ExpressionText.Tokenize | static/script.js:194 | the split yields separator tokens and non-empty runs, never two runs in a row, and nothing for empty text |
| ExpressionText.TokenizeRoundTrip | static/script.js:194 | joining the tokens gives back the text |
| ExpressionText.NeverNegativeIff | static/script.js:198-203 | the counter never drops below zero exactly when no prefix closes more parentheses than it opens |
| ExpressionText.DepthAppend | static/script.js:198-204 | the counter over two texts is the sum of the counters |
| ExpressionText.StripKeepsOpenCount | static/script.js:155 | removing white space keeps every '(' |
| Evaluator.Apply | static/script.js:169-191 | an operator of the table fails exactly on a NaN operand (invalid operands for it) or a division by zero (division by zero), and on two finite numbers adds, subtracts, multiplies or divides them |
| EvaluatorImpl.SpliceGroup | static/script.js:216 | `splice(open, close - open + 1, item)` replaces exactly the tokens from `open` to `close` by `item` |
| EvaluatorImpl.SpliceIsInnermost | static/script.js:213-216 | the loop's splice of the printed group result is one round of the specified parenthesis stage |
| Evaluator.LastIndexOf | static/script.js:209 | `lastIndexOf` finds the last occurrence, or -1 when there is none |
| Evaluator.IndexOf | static/script.js:210 | `indexOf` from an index finds the first occurrence at or after it, or -1 |
| Evaluator.ResolveInnermost | static/script.js:209-216 | one round of the group loop removes exactly one group: the count of '(' drops by exactly one, so the loop ends |
| Evaluator.Reduce | static/script.js:220-240 | the two reduction passes keep every operator slot a text |
| Evaluator.CleanedTokens | static/script.js:155-194 | the tokens of the cleaned text hold as many '(' as the input |
| Evaluator.ParenFreeInnerDisplay | static/script.js:213-216 | the printed result of a group without parentheses has none either: a number, or a message that quotes at most one of its tokens |
| Evaluator.ParenFreeNeverInvalidOperator | static/script.js:150-270 | an expression without parentheses never fails with "Invalid operator" |
| Evaluator.TokensSeparated | static/script.js:193 | splitting a text without parentheses puts an operator between any two operands |
| Evaluator.ReducePassSeparated | static/script.js:221-240 | a reduction pass that succeeds keeps an operator between any two operands |
| Evaluator.SpliceSeparated | static/script.js:225 | collapsing two operands and their operator into one value keeps an operator between any two operands |
| Evaluator.OperatorIsNaN | static/script.js:224 | an operator read by `parseFloat` is NaN |
| Evaluator.FoldNeverInvalidOperator | static/script.js:248-254 | started after an operand, the fold over separated operands never throws "Invalid operator" |
| Evaluator.ArithmeticNeverInvalidOperator | static/script.js:220-256 | on separated operands the operator stages never throw "Invalid operator" |
| Evaluator.ReducePassKeepsSlots | static/script.js:221-240 | a reduction pass keeps every operator slot a text |
| Evaluator.ReducePassErrors | static/script.js:221-240 | a reduction pass fails only with an operator's own errors |
| Evaluator.FoldOperatorToken | static/script.js:249-253 | an "Invalid operator" from the fold quotes the text of an odd slot, at or after the start, that is not an operator of the table |
| Evaluator.SpliceShrinks | static/script.js:213-216 | splicing the printed group result over the group removes exactly one '(' and keeps the list well formed |
| Evaluator.SpliceParenFree | static/script.js:216 | replacing a group by a text without parentheses removes exactly one '(' |
| Evaluator.GroupInsideIsParenFree | static/script.js:209-213 | the tokens between the last '(' and the next ')' hold no parenthesis |
| EvaluatorImpl.CheckParentheses | static/script.js:198-204 | the counter loop fails exactly on unbalanced text: "Unmatched closing" when a prefix closes too many, otherwise "Unmatched opening" |
| EvaluatorImpl.ResolveParentheses | static/script.js:207-218 | the group loop, with its recursive call, computes the specification's parenthesis stage |
| EvaluatorImpl.ReduceLeftToRight | static/script.js:221-240 | each index-rewinding loop computes the specification's reduction pass |
| EvaluatorImpl.FoldLeft | static/script.js:248-256 | the additive loop computes the specification's fold |
| EvaluatorImpl.EvaluateExpression | static/script.js:150-270 | the whole function, with its loops, computes `Evaluator.Evaluate` |
| EvaluatorFacts.ResolveParensErrors | static/script.js:207-218 | the group loop throws only "Mismatched parentheses"; a group's error is spliced in as text |
| EvaluatorFacts.FoldErrors | static/script.js:248-256 | the fold throws only operator errors or "Invalid operator" |
| EvaluatorFacts.FoldStopsAtText | static/script.js:249-254 | when every earlier slot applied its operator and the text at an odd slot is not an operator, the fold fails with "Invalid operator" quoting that text |
| EvaluatorFacts.ArithmeticErrors | static/script.js:220-256 | the operator stages throw only operator errors, "Expression must start with a number" or "Invalid operator" |
| EvaluatorFacts.LaterErrors | static/script.js:206-261 | after validation, failures come only from the loop, the operator stages and the result check |
| EvaluatorFacts.EmptyExpressionIff | static/script.js:155-160 | "Empty expression" exactly when the input is nothing but white space |
| EvaluatorFacts.InvalidCharactersIff | static/script.js:162-164 | "Invalid characters" exactly when some character is neither white space nor permitted |
| EvaluatorFacts.InvalidCharacterFound | static/script.js:162-164 | one forbidden character makes the input fail |
| EvaluatorFacts.NoInvalidCharacter | static/script.js:162-164 | without a forbidden character the input never fails that way |
| EvaluatorFacts.UnmatchedClosingIff | static/script.js:198-203 | "Unmatched closing parenthesis" exactly when some prefix of permitted text closes more than it opens |
| EvaluatorFacts.UnmatchedOpeningIff | static/script.js:204 | "Unmatched opening parenthesis" exactly when permitted text never closes too many but leaves some open |
| EvaluatorFacts.SpliceKeepsBalance | static/script.js:216 | replacing a closed group with text free of parentheses keeps the text balanced |
| EvaluatorFacts.UnclosedGroup | static/script.js:209-211 | a last '(' with no ')' after it means the text is unbalanced |
| EvaluatorFacts.SpliceBalanced | static/script.js:216 | the splice keeps a balanced token list balanced |
| EvaluatorFacts.GroupSpliceBalanced | static/script.js:213-216 | one round of the loop keeps a balanced list balanced |
| EvaluatorFacts.BalancedResolves | static/script.js:207-218 | on a balanced list the group loop never throws |
| EvaluatorFacts.NeverMismatched | static/script.js:211 | no input is answered with "Mismatched parentheses" |
| EvaluatorFacts.ReducePassClears | static/script.js:221-240 | after a pass, no operator of its own set stands between two operands |
| EvaluatorFacts.ReducePassKeepsFree | static/script.js:221-240 | a pass moves no new operator into an operator slot |
| EvaluatorFacts.OnlySumsAreFolded | static/script.js:220-249 | after the '^' pass and the '*'/'/' pass, only '+', '-' or a non-operator are left between operands |
| EvaluatorFacts.ReducePassIsChainFold | static/script.js:221-240 | the index-rewinding loop equals a left-to-right fold of each run of operands joined by its operators |
| EvaluatorFacts.ReducePassFromStart | static/script.js:221-240 | a whole pass is that fold over the list |
| EvaluatorFacts.ReduceAtOperator | static/script.js:222-226 | at an operator of the set, the triple becomes its value and the index stays |
| EvaluatorFacts.ReduceAtOther | static/script.js:221 | at any other entry, the loop moves on by two |
| EvaluatorExamples.TwoPlusThree | static/script.js:150-270 | "2+3" evaluates to 5 |
| EvaluatorExamples.ProductBeforeSum | static/script.js:220-256 | "2+3*4" is 14: multiplication binds tighter than addition |
| EvaluatorExamples.PowerGroupsLeft | static/script.js:221-229 | "2^3^2" is (2^3)^2, so `^` groups to the left |
| EvaluatorExamples.DivideByZero | static/script.js:184 | "5/0" fails with "Division by zero" |
| EvaluatorExamples.LeadingMinus | static/script.js:243-245 | "-1" fails with "Expression must start with a number" |
| EvaluatorExamples.MinusThree | static/script.js:243-245 | "-3" fails the same way |
| EvaluatorExamples.GroupFirst | static/script.js:207-218 | "(2+3)*4" is 20: the group is evaluated first |
| EvaluatorExamples.OneMinusFour | static/script.js:248-256 | "1-4" is -3 |
| EvaluatorExamples.NegativeGroup | static/script.js:213-236 | "(1-4)*2" is -6: the spliced "-3" is read back as one negative number |
| EvaluatorExamples.OneThird | static/script.js:264 | "1/3" is 0.333 |
| EvaluatorExamples.OneThirdText | static/script.js:216 | 0.333 prints as "0.333" and parses back |
| EvaluatorExamples.ThirdTimesThree | static/script.js:232-240 | "1/3*3" is 1: the exact quotient is carried within one level |
| EvaluatorExamples.RoundedGroup | static/script.js:215-216 | "(1/3)*3" is 0.999: the group's result is rounded before it is reused |
| EvaluatorExamples.BracketsChangeTheAnswer | static/script.js:215-264 | brackets that do not change the order of operations still change the answer |
| EvaluatorExamples.ErrorInsideGroup | static/script.js:215-216 | "2*(5/0)" fails with invalid operands for multiplication, because the group's error text is read as NaN |
| EvaluatorExamples.DoubledBracketsAroundNegative | static/script.js:207-245 | "((1-4))" fails although "1-4" is -3 |
| EvaluatorExamples.DigitAlone | static/script.js:150-269 | a single digit evaluates to itself and prints as itself |
| EvaluatorExamples.AdjacentGroups | static/script.js:207-254 | "(2)(3)" fails with "Invalid operator: 3": both groups resolve and the "3" stands where an operator should |
| Strokes.Push | static/script.js:84-85 | pushing keeps the last 50 points and puts the new point at the end |
| Strokes.PushesKeepRecent | static/script.js:84-85 | any number of pushes leaves exactly the most recent 50 points, in order |
| Strokes.Min | static/script.js:767-770 | `Math.min` is a lower bound of the list and one of its elements |
| Strokes.Max | static/script.js:767-770 | `Math.max` is an upper bound of the list and one of its elements |
| Strokes.BoundingBox | static/script.js:767-770 | the box contains every point, and each edge touches a point |
| Strokes.AspectWithinIff | static/script.js:774-779 | the ratio-and-size test equals testing both sides ≥ 30 and then the quotient, even when the height is 0 |
| Strokes.OnlyPinkIsDetected | static/script.js:765-776 | only a pink stroke of at least 30 points is ever recognised |
| Strokes.CountsFit | static/script.js:789-790 | the points left and right of the centre are no more than all the points |
| Strokes.SidesNeverTooUneven | static/script.js:792 | the balance test never rejects a buffer of at most 50 points |
| Strokes.LowestIsLowest | static/script.js:794 | the reduction picks a point of the greatest y |
| Strokes.BottomIsAtMaxY | static/script.js:794-795 | the bottom point lies on the box's bottom edge, so that test never rejects |
| Strokes.HeartTestsPass | static/script.js:788-800 | both further heart tests pass on every buffer the handler can hold |
| Strokes.CircleIff | static/script.js:776-784 | a circle exactly when the trace is pink, has at least 30 points, both sides are ≥ 30 and the ratio lies in [0.8, 1.2] |
| Strokes.HeartIff | static/script.js:786-801 | a heart exactly when the ratio lies in [0.4, 1.7] but outside the circle range, under the same conditions |
| Templates.Lookup | static/script.js:444-445 | a command is found exactly when it is "draw " followed by some template's name |
| Templates.FirstMatch | static/script.js:444-445 | the search from an entry finds a command exactly when a later entry matches, and yields that entry's points |
| Templates.FirstMatchSkips | static/script.js:444-445 | the search passes over entries that do not match |
| Templates.NamesAreDistinct | static/script.js:500-744 | no two templates share a name |
| Templates.LookupFindsEveryTemplate | static/script.js:444-450 | "draw <name>" plays exactly the template of that name |
| Templates.TemplatesHaveSegments | static/script.js:500-744 | every template has at least four points |
| Templates.LookupYieldsTemplate | static/script.js:444-450 | an accepted command yields some template's points |
| Templates.LookupHasSegments | static/script.js:444-450 | every accepted command has segments to play |
| Templates.LookupExamples | static/script.js:444-450 | "draw circle" plays the first template, and "draw dog" plays nothing |
| Playback.Segments | static/script.js:752-756 | one segment from each point to the next |
| Playback.SegmentsFromSlice | static/script.js:752-757 | the segments drawn from a loop index on are a slice of the template's segments |
| Playback.RunWhilePlaying | static/script.js:752-757 | inside the loop, each `next()` draws the segment ending at the index and advances it |
| Playback.PlaybackDrawsEverySegmentOnce | static/script.js:747-762 | the first n-1 calls draw every segment once, in order; the n-th returns and clears the flags; later calls do nothing |
| Sketchpad.Trim | static/script.js:404 | `trim` strips white space from both ends only |
| Sketchpad.Lower | static/script.js:404 | `toLowerCase` maps each character on its own |
| Sketchpad.Sketchpad.constructor | static/script.js:17-33 | the page starts in the initial state |
| Sketchpad.Sketchpad.CheckForHeart | static/script.js:764-802 | the buffer is emptied exactly when a shape is detected; nothing else changes |
| Sketchpad.Sketchpad.OnFingerTip | static/script.js:74-91 | a camera frame leaves exactly the state `FingerTip` gives: while drawing by hand the point is pushed (keeping the last 50) and the shape test runs past 30 points; the last position always moves to the point |
| Sketchpad.Sketchpad.OnVoiceCommand | static/script.js:400-474 | a phrase leaves exactly the state `Command` gives: dropped within the debounce window, otherwise stamped, then the fixed commands, then the template names |
| Sketchpad.Sketchpad.RunFixedCommands | static/script.js:409-441 | each fixed command sets the flags, line or buffer its branch names, and a phrase matching none changes nothing |
| Sketchpad.Sketchpad.RunDrawCommand | static/script.js:444-473 | the template loop leaves the state `DrawCommand` gives: on the first matching name it empties the buffer, raises both flags and starts that template |
| Sketchpad.Sketchpad.OnAnimationFrame | static/script.js:461 | one frame is one `next()`: the state and `done` are those `Tick` gives |
| Sketchpad.Sketchpad.OnKeydown | static/script.js:273-380 | a key leaves exactly the state `Key` gives, and returns the text Enter writes, if any |
| Sketchpad.Sketchpad.OnEnter | static/script.js:323-363 | Enter writes the line (evaluated by `EvaluateExpression` when it looks like arithmetic) and starts a new line below, as `Enter` gives |
| Sketchpad.Sketchpad.OnCanvasClick | static/script.js:383-397 | a click leaves exactly the state `Click` gives |
| Sketchpad.Sketchpad.OnStartButton | static/script.js:805-808 | sets `drawing` and nothing else |
| Sketchpad.Sketchpad.OnStopButton | static/script.js:809-812 | clears `drawing` and nothing else |
| Sketchpad.Sketchpad.OnClearButton | static/script.js:813-817 | empties the buffer and nothing else |
| Sketchpad.Sketchpad.OnColorButton | static/script.js:820-827 | sets the colour and nothing else |
| SketchpadFacts.HandleKeepsConsistent | static/script.js:74-91 | every event keeps the invariant: the buffer holds at most 50 points, `aiDrawing` is set exactly while a template plays, and the loop index stays within the template |
| SketchpadFacts.ReplayKeepsConsistent | static/script.js:17-33 | any sequence of events keeps the invariant |
| SketchpadFacts.EveryRunIsConsistent | static/script.js:17-33 | from page load, every run is consistent |
| SketchpadFacts.FingerTipKeepsConsistent | static/script.js:84-85 | the camera-frame handler keeps the invariant |
| SketchpadFacts.CommandKeepsConsistent | static/script.js:444-450 | the voice handler keeps the invariant |
| SketchpadFacts.TickKeepsConsistent | static/script.js:760-761 | an animation step keeps the invariant |
| SketchpadFacts.FingerTipIgnoredUnlessDrawingByHand | static/script.js:74 | while not drawing, or while a template plays, a frame moves only the last position |
| SketchpadFacts.HandStrokeKeepsRecentPoints | static/script.js:84-87 | in any colour but pink, the buffer is exactly the last 50 points drawn |
| SketchpadFacts.ShortBufferOnlyGrows | static/script.js:84-87 | up to 30 points, a frame only appends |
| SketchpadFacts.ShapeEmptiesBuffer | static/script.js:87 | past 30 points, the buffer is emptied exactly when a shape is detected |
| SketchpadFacts.CommandDebounced | static/script.js:401-402 | within a second of the last accepted command, every phrase is dropped |
| SketchpadFacts.UnknownCommandOnlyStamps | static/script.js:407-441 | a phrase that is no command only restarts the debounce window |
| SketchpadFacts.ModeCommands | static/script.js:409-429 | after "start drawing" or "start typing", drawing and typing exclude each other; "stop typing" forgets the line |
| SketchpadFacts.NoDrawCommand | static/script.js:445 | a phrase that does not start with "draw " plays nothing |
| SketchpadFacts.DrawCommandStartsPlayback | static/script.js:444-450 | "draw <name>" empties the buffer, raises both flags and starts that template; nothing else changes |
| SketchpadFacts.OtherCommandsKeepPlayback | static/script.js:409-441 | any other phrase leaves a playing template alone |
| SketchpadFacts.SpokenDrawCircle | static/script.js:404 | " Draw Circle " with blanks and capitals starts the circle template |
| SketchpadFacts.TicksWhilePlaying | static/script.js:461 | while inside the template, each frame draws the next segment |
| SketchpadFacts.PlaybackFromStart | static/script.js:456-470 | the frames draw the template's segments in order, hand points are ignored meanwhile, and the next frame lowers both flags |
| SketchpadFacts.DrawCommandPlaysTemplate | static/script.js:444-473 | "draw <name>" and its frames draw exactly the template's segments, then end playback |
| SketchpadFacts.KeyTEntersTyping | static/script.js:275-284 | 't' or 'T' outside typing mode enters typing at the canvas centre and stops drawing |
| SketchpadFacts.KeysIgnoredOutsideTyping | static/script.js:275-287 | outside typing mode, every other key is ignored |
| SketchpadFacts.TypingAppends | static/script.js:366-375 | in typing mode every character key, 't' included, is appended |
| SketchpadFacts.BackspaceUndoesKey | static/script.js:304-319 | Backspace undoes the character just typed |
| SketchpadFacts.EscapeLeavesTyping | static/script.js:295-301 | Escape leaves typing mode and forgets the line |
| SketchpadFacts.EnterWritesLine | static/script.js:323-363 | Enter writes a non-empty line, evaluated when it looks like arithmetic (the error alone, or "line = value"), then starts an empty line 40 pixels lower; on an empty line it does nothing |
| SketchpadFacts.ClickPlacesText | static/script.js:383-397 | a click in typing mode moves the insertion point and starts an empty line; otherwise it does nothing |

## Left out

- Finite JavaScript numbers are exact reals here. IEEE-754 rounding, overflow to Infinity and -0 are not modelled. NaN and the infinities are modelled, so both halves of the result check at line 259 are too, but in the model an infinity can only come from `Math.pow`.
- `Math.pow` is a parameter (`Pow`) with no properties: its floating-point behaviour is outside the model.
- The model's `parseFloat` covers only the texts the evaluator can produce. Exponent forms, "Infinity" and leading white space never occur in them.
- `toString` is modelled only for the rounded results the evaluator prints. Results of 1e21 or more, which print in exponent form, are not modelled.
- The camera and MediaPipe pipeline (lines 40-105) is left out. The finger-tip point is a parameter, already scaled to the canvas and mirrored.
- The 60 FPS cap on camera frames (lines 61-63) is left out: a dropped frame is simply an event that does not happen.
- Speech-recognition setup and restarts (lines 107-147, 476-490) are left out. The transcript is a parameter.
- Canvas drawing, the heart sound, the screenshot link and the cursor style change no modelled state, so they are left out. The text Enter writes on the canvas is returned by `Key`.
- The `requestAnimationFrame` timing of the drawing animation (lines 452-470) is left out. Each `OnAnimationFrame` call is one `next()` on the generator.
- When a second `draw` command replaces a running animation, the old animation loop keeps calling `next()` on the shared generator. The model has a single frame event for the current generator and does not model the extra calls.
- An animation frame before the first `draw` command has no generator to advance, so in the model it changes nothing.
- Sketchpad.Lower maps only the letters A to Z. The case mapping of other Unicode letters is not modelled.
- `e.key.length === 1` counts UTF-16 code units. The model counts characters.
- The `catch` at lines 355-360 is not modelled. Nothing in its `try` block throws, since `evaluateExpression` catches its own errors.
- `Date.now()` is a parameter of the voice handler.
- The globals `isCalculating`, `heartPlayed`, `standardColors` and `isValidColor` are declared but never affect the handlers, so they are left out.
- JsNumbers.DigitValue gives 0 for a non-digit. The model only applies it to digits.
