/** The specification of `evaluateExpression` (static/script.js:150-270), stage by stage.
    The method that models the code itself, with its loops, is in evaluator_impl.dfy and is
    proved equal to `Evaluate`. */
module Evaluator {
  import opened JsNumbers
  import opened ExpressionText

  /** `Math.pow`, which the model leaves uninterpreted: every member takes it as a parameter. */
  type Pow = (JsNum, JsNum) -> JsNum

  /** The messages `evaluateExpression` throws, each as its own case. */
  datatype EvalError =
    | EmptyExpression
    | InvalidCharacters
    | UnmatchedClosing
    | UnmatchedOpening
    | MismatchedParentheses
    | InvalidOperands(op: char)
    | DivisionByZero
    | MissingLeadingNumber
    | InvalidOperator(token: string)
    | InvalidResult

  function OperationName(op: char): string
  {
    match op
    case '+' => "addition"
    case '-' => "subtraction"
    case '*' => "multiplication"
    case '/' => "division"
    case _ => "exponentiation"
  }

  /** The `message` of the thrown `Error`. */
  function Message(e: EvalError): string
  {
    match e
    case EmptyExpression => "Empty expression"
    case InvalidCharacters => "Invalid characters in expression"
    case UnmatchedClosing => "Unmatched closing parenthesis"
    case UnmatchedOpening => "Unmatched opening parenthesis"
    case MismatchedParentheses => "Mismatched parentheses"
    case InvalidOperands(op) => "Invalid operands for " + OperationName(op)
    case DivisionByZero => "Division by zero"
    case MissingLeadingNumber => "Expression must start with a number"
    case InvalidOperator(t) => "Invalid operator: " + t
    case InvalidResult => "Invalid result"
  }

  /** What `evaluateExpression` returns: a number, or the string "Error: " + message. */
  datatype Outcome = Value(v: real) | Failure(error: EvalError)

  /** `result.toString()` of a returned value, as spliced into the enclosing token list. */
  function Display(o: Outcome): string
  {
    match o
    case Value(v) => DecimalText((v * 1000.0).Floor)
    case Failure(e) => "Error: " + Message(e)
  }

  /** A thrown error inside one evaluation, before the `catch` turns it into a string. */
  datatype Result<T> = Ok(value: T) | Err(error: EvalError) {
    predicate IsFailure() { Err? }
    function PropagateFailure<U>(): Result<U> requires Err? { Err(error) }
    function Extract(): T requires Ok? { value }
  }

  /** An entry of `tokens` once parentheses are gone: a text from the split or a splice, or a
      number spliced in by a reduction (JavaScript stores its `toString()`, which `parseFloat`
      reads back as the same number, so the model keeps the number). */
  datatype Token = Text(text: string) | Computed(number: JsNum)

  /** `parseFloat(tokens[j])`; past the end `tokens[j]` is undefined and the result NaN. */
  function NumberAt(ts: seq<Token>, j: int): JsNum
  {
    if 0 <= j < |ts| then
      match ts[j]
      case Text(s) => ParseFloat(s)
      case Computed(n) => n
    else NaN
  }

  const Operators: set<char> := {'+', '-', '*', '/', '^'}

  predicate IsOperatorIn(t: Token, ops: set<char>)
  {
    t.Text? && |t.text| == 1 && t.text[0] in ops
  }

  /** The entry of the `operators` table for `op` (lines 169-191): NaN operands are refused,
      then a zero divisor, then the arithmetic is done. */
  function Apply(pow: Pow, op: char, a: JsNum, b: JsNum): (r: Result<JsNum>)
    requires op in Operators
    ensures r.Err? <==> a.NaN? || b.NaN? || (op == '/' && b == Finite(0.0))
    ensures r.Err? ==> r.error == if a.NaN? || b.NaN? then InvalidOperands(op) else DivisionByZero
    ensures a.Finite? && b.Finite? && op == '+' ==> r == Ok(Finite(a.value + b.value))
    ensures a.Finite? && b.Finite? && op == '-' ==> r == Ok(Finite(a.value - b.value))
    ensures a.Finite? && b.Finite? && op == '*' ==> r == Ok(Finite(a.value * b.value))
    ensures a.Finite? && b.Finite? && op == '/' && b.value != 0.0 ==> r == Ok(Finite(a.value / b.value))
  {
    if a.NaN? || b.NaN? then Err(InvalidOperands(op))
    else if op == '/' && b == Finite(0.0) then Err(DivisionByZero)
    else
      Ok(match op
         case '+' => Add(a, b)
         case '-' => Subtract(a, b)
         case '*' => MultiplyFinite(a, b); Multiply(a, b)
         case '/' => Divide(a, b)
         case _ => pow(a, b))
  }

  lemma MultiplyFinite(a: JsNum, b: JsNum)
    ensures a.Finite? && b.Finite? ==> Multiply(a, b) == Finite(a.value * b.value)
  {
  }

  /** `s.splice(start, count, item)` as a value: the elements from `start` on, at most
      `count` of them, replaced by `item`. */
  function Splice<T>(s: seq<T>, start: nat, count: nat, item: T): (r: seq<T>)
    requires start <= |s|
    ensures |r| == |s| + 1 - (if start + count <= |s| then count else |s| - start)
  {
    s[..start] + [item] + s[if start + count <= |s| then start + count else |s|..]
  }

  // ---------------------------------------------------------------------------------
  // Lines 207-218: parentheses, innermost group first

  /** `tokens.lastIndexOf(t)`. */
  function LastIndexOf(ts: seq<string>, t: string): (k: int)
    ensures -1 <= k < |ts|
    ensures k >= 0 ==> ts[k] == t && forall j :: k < j < |ts| ==> ts[j] != t
    ensures k < 0 ==> t !in ts
  {
    if ts == [] then -1
    else if ts[|ts| - 1] == t then |ts| - 1
    else LastIndexOf(ts[..|ts| - 1], t)
  }

  /** `tokens.indexOf(t, from)`. */
  function IndexOf(ts: seq<string>, t: string, from: nat): (k: int)
    ensures k == -1 || from <= k < |ts|
    ensures k >= 0 ==> ts[k] == t && forall j :: from <= j < k ==> ts[j] != t
    ensures k < 0 ==> forall j :: from <= j < |ts| ==> ts[j] != t
    decreases |ts| - from
  {
    if from >= |ts| then -1
    else if ts[from] == t then from
    else IndexOf(ts, t, from + 1)
  }

  predicate ParenFree(s: string)
  {
    '(' !in s && ')' !in s
  }

  /** Every entry is a parenthesis token or holds no parenthesis at all. */
  predicate ParenTokens(ts: seq<string>)
  {
    forall t :: t in ts ==> t == "(" || t == ")" || ParenFree(t)
  }

  /** The `while (tokens.includes('('))` loop: each round evaluates the tokens between the
      last "(" and the next ")" recursively and splices the printed result in their place. */
  function ResolveParens(pow: Pow, ts: seq<string>): Result<seq<string>>
    requires ParenTokens(ts)
    decreases OpenCount(Join(ts)), 1
  {
    if "(" !in ts then Ok(ts)
    else
      var open := LastIndexOf(ts, "(");
      var close := IndexOf(ts, ")", open);
      if close < 0 then Err(MismatchedParentheses)
      else ResolveParens(pow, ResolveInnermost(pow, ts, open, close))
  }

  /** One round of that loop: the group from the last "(" to the next ")" replaced by the
      printed result of evaluating the tokens inside it. */
  function ResolveInnermost(pow: Pow, ts: seq<string>, open: int, close: int): (next: seq<string>)
    requires ParenTokens(ts) && "(" in ts
    requires open == LastIndexOf(ts, "(") && close == IndexOf(ts, ")", open) && close >= 0
    ensures ParenTokens(next) && OpenCount(Join(next)) == OpenCount(Join(ts)) - 1
    decreases OpenCount(Join(ts)), 0
  {
    GroupInsideIsParenFree(ts, open, close);
    SpliceShrinks(pow, ts, open, close);
    ts[..open] + [Display(Evaluate(pow, Join(ts[open + 1..close])))] + ts[close + 1..]
  }

  // ---------------------------------------------------------------------------------
  // Lines 220-256: the reductions and the additive fold

  /** One of the index-rewinding loops of lines 221-229 (`ops` = {'^'}) and 232-240
      (`ops` = {'*', '/'}): at each odd index holding an operator of `ops`, the triple around
      it is replaced by its value and the index stays where it is. */
  function ReducePass(pow: Pow, ops: set<char>, ts: seq<Token>, i: int): Result<seq<Token>>
    requires ops <= Operators
    requires i >= 1
    decreases |ts| - i
  {
    if i >= |ts| then Ok(ts)
    else if IsOperatorIn(ts[i], ops) then
      var r :- Apply(pow, ts[i].text[0], NumberAt(ts, i - 1), NumberAt(ts, i + 1));
      ReducePass(pow, ops, Splice(ts, i - 1, 3, Computed(r)), i)
    else ReducePass(pow, ops, ts, i + 2)
  }

  /** The entries at odd indices, the operator slots, are all texts. */
  predicate OperatorSlotsAreText(ts: seq<Token>)
  {
    forall j :: 0 <= j < |ts| && j % 2 == 1 ==> ts[j].Text?
  }

  /** The loop of lines 248-256: an accumulator folded through `tokens[i]`, `tokens[i+1]`. */
  function AddSubFold(pow: Pow, ts: seq<Token>, i: int, acc: JsNum): Result<JsNum>
    requires OperatorSlotsAreText(ts)
    requires i >= 1 && i % 2 == 1
    decreases |ts| - i
  {
    if i >= |ts| then Ok(acc)
    else if !IsOperatorIn(ts[i], Operators) then Err(InvalidOperator(ts[i].text))
    else
      var r :- Apply(pow, ts[i].text[0], acc, NumberAt(ts, i + 1));
      AddSubFold(pow, ts, i + 2, r)
  }

  /** Lines 220-240: the exponent pass, then the multiplication and division pass. */
  function Reduce(pow: Pow, items: seq<Token>): (r: Result<seq<Token>>)
    requires OperatorSlotsAreText(items)
    ensures r.Ok? ==> OperatorSlotsAreText(r.value)
  {
    var powered :- ReducePass(pow, {'^'}, items, 1);
    ReducePassKeepsSlots(pow, {'^'}, items, 1);
    var multiplied :- ReducePass(pow, {'*', '/'}, powered, 1);
    ReducePassKeepsSlots(pow, {'*', '/'}, powered, 1);
    Ok(multiplied)
  }

  /** Lines 220-256 on the tokens left once the parentheses are gone. */
  function Arithmetic(pow: Pow, items: seq<Token>): Result<JsNum>
    requires OperatorSlotsAreText(items)
  {
    var rest :- Reduce(pow, items);
    if |rest| > 0 && NumberAt(rest, 0).NaN? then Err(MissingLeadingNumber)
    else AddSubFold(pow, rest, 1, NumberAt(rest, 0))
  }

  function AsTokens(ts: seq<string>): (items: seq<Token>)
    ensures |items| == |ts| && forall j :: 0 <= j < |ts| ==> items[j] == Text(ts[j])
  {
    if ts == [] then [] else [Text(ts[0])] + AsTokens(ts[1..])
  }

  /** `evaluateExpression(expression)`: validation, parentheses, the three precedence levels,
      the result check and the rounding. Every throw becomes a `Failure`. */
  function Evaluate(pow: Pow, expression: string): Outcome
    decreases OpenCount(expression), 2
  {
    var c := StripWhiteSpace(expression);
    if c == [] then Failure(EmptyExpression)
    else if !AllPermitted(c) then Failure(InvalidCharacters)
    else if !NeverNegative(c) then Failure(UnmatchedClosing)
    else if Depth(c) != 0 then Failure(UnmatchedOpening)
    else
      var tokens := Tokenize(c);
      CleanedTokens(expression);
      match ResolveParens(pow, tokens)
      case Err(e) => Failure(e)
      case Ok(ts) =>
        match Arithmetic(pow, AsTokens(ts))
        case Err(e) => Failure(e)
        case Ok(r) =>
          if r.NaN? || r.Infinity? then Failure(InvalidResult) else Value(Round3(r.value))
  }

  // ---------------------------------------------------------------------------------
  // Facts the definitions above rely on

  lemma DisplayValueParenFree(v: real)
    ensures ParenFree(Display(Value(v)))
  {
    var s := Display(Value(v));
    assert forall i :: 0 <= i < |s| ==> s[i] != '(' && s[i] != ')';
  }

  lemma ParenFreeAppend(a: string, b: string)
    requires ParenFree(a) && ParenFree(b)
    ensures ParenFree(a + b)
  {
  }

  // The fixed messages hold no parenthesis. Each literal gets a lemma of its own: one case
  // split over all of them is far more work for the solver.

  lemma EmptyExpressionText()
    ensures ParenFree("Empty expression")
  {
  }

  lemma InvalidCharactersText()
    ensures ParenFree("Invalid characters in expression")
  {
  }

  lemma UnmatchedClosingText()
    ensures ParenFree("Unmatched closing parenthesis")
  {
  }

  lemma UnmatchedOpeningText()
    ensures ParenFree("Unmatched opening parenthesis")
  {
  }

  lemma DivisionByZeroText()
    ensures ParenFree("Division by zero")
  {
  }

  lemma MismatchedText()
    ensures ParenFree("Mismatched parentheses")
  {
  }

  lemma MissingLeadingNumberText()
    ensures ParenFree("Expression must start with a number")
  {
  }

  lemma InvalidResultText()
    ensures ParenFree("Invalid result")
  {
  }

  lemma ValidationMessageParenFree(e: EvalError)
    requires e.EmptyExpression? || e.InvalidCharacters? || e.UnmatchedClosing? || e.UnmatchedOpening?
    ensures ParenFree(Message(e))
  {
    match e {
      case EmptyExpression => EmptyExpressionText();
      case InvalidCharacters => InvalidCharactersText();
      case UnmatchedClosing => UnmatchedClosingText();
      case UnmatchedOpening => UnmatchedOpeningText();
    }
  }

  lemma OperationNameParenFree(op: char)
    ensures ParenFree(OperationName(op))
  {
  }

  lemma OperationMessageParenFree(e: EvalError)
    requires e.InvalidOperands? || e.DivisionByZero? || e.MismatchedParentheses?
    ensures ParenFree(Message(e))
  {
    match e {
      case InvalidOperands(op) =>
        OperationNameParenFree(op);
        ParenFreeAppend("Invalid operands for ", OperationName(op));
      case DivisionByZero => DivisionByZeroText();
      case MismatchedParentheses => MismatchedText();
    }
  }

  lemma ArithmeticMessageParenFree(e: EvalError)
    requires e.MissingLeadingNumber? || e.InvalidResult? || e.InvalidOperator?
    requires e.InvalidOperator? ==> ParenFree(e.token)
    ensures ParenFree(Message(e))
  {
    match e {
      case MissingLeadingNumber => MissingLeadingNumberText();
      case InvalidResult => InvalidResultText();
      case InvalidOperator(t) => ParenFreeAppend("Invalid operator: ", t);
    }
  }

  lemma MessageParenFree(e: EvalError)
    requires e.InvalidOperator? ==> ParenFree(e.token)
    ensures ParenFree("Error: " + Message(e))
  {
    if e.EmptyExpression? || e.InvalidCharacters? || e.UnmatchedClosing? || e.UnmatchedOpening? {
      ValidationMessageParenFree(e);
    } else if e.InvalidOperands? || e.DivisionByZero? || e.MismatchedParentheses? {
      OperationMessageParenFree(e);
    } else {
      ArithmeticMessageParenFree(e);
    }
    ParenFreeAppend("Error: ", Message(e));
  }

  lemma {:induction false} JoinHasTokenChars(ts: seq<string>, k: nat, c: char)
    requires k < |ts| && c in ts[k]
    ensures c in Join(ts)
  {
    if k > 0 {
      JoinHasTokenChars(ts[1..], k - 1, c);
    }
  }

  /** The tokens of the cleaned text are fit for `ResolveParens` and hold as many "(" as the
      expression. */
  lemma CleanedTokens(expression: string)
    ensures var tokens := Tokenize(StripWhiteSpace(expression));
      ParenTokens(tokens) && OpenCount(Join(tokens)) == OpenCount(expression)
  {
    var c := StripWhiteSpace(expression);
    var tokens := Tokenize(c);
    forall t | t in tokens ensures t == "(" || t == ")" || ParenFree(t) {
      if !IsSeparatorToken(t) {
        assert IsRunToken(t);
        assert forall i :: 0 <= i < |t| ==> t[i] != '(' && t[i] != ')';
      } else {
        assert t == [t[0]];
      }
    }
    TokenizeRoundTrip(c);
    StripKeepsOpenCount(expression);
  }

  /** The texts a reduction pass leaves are texts it was given. */
  lemma {:induction false} ReducePassKeepsTexts(pow: Pow, ops: set<char>, ts: seq<Token>, i: int)
    requires ops <= Operators && i >= 1
    requires ReducePass(pow, ops, ts, i).Ok?
    ensures forall t :: t in ReducePass(pow, ops, ts, i).value && t.Text? ==> t in ts
    decreases |ts| - i
  {
    if i < |ts| {
      if IsOperatorIn(ts[i], ops) {
        var r := Apply(pow, ts[i].text[0], NumberAt(ts, i - 1), NumberAt(ts, i + 1)).value;
        var next := Splice(ts, i - 1, 3, Computed(r));
        ReducePassKeepsTexts(pow, ops, next, i);
        assert forall t :: t in next && t.Text? ==> t in ts;
      } else {
        ReducePassKeepsTexts(pow, ops, ts, i + 2);
      }
    }
  }

  /** A reduction pass keeps every operator slot a text: each reduction puts its number at
      an even index and moves what follows by two. */
  lemma {:induction false} ReducePassKeepsSlots(pow: Pow, ops: set<char>, ts: seq<Token>, i: int)
    requires ops <= Operators && i >= 1 && i % 2 == 1
    requires OperatorSlotsAreText(ts)
    requires ReducePass(pow, ops, ts, i).Ok?
    ensures OperatorSlotsAreText(ReducePass(pow, ops, ts, i).value)
    decreases |ts| - i
  {
    if i < |ts| {
      if IsOperatorIn(ts[i], ops) {
        var r := Apply(pow, ts[i].text[0], NumberAt(ts, i - 1), NumberAt(ts, i + 1)).value;
        var next := Splice(ts, i - 1, 3, Computed(r));
        assert i + 1 < |ts|;
        assert forall j :: i <= j < |next| ==> next[j] == ts[j + 2];
        ReducePassKeepsSlots(pow, ops, next, i);
      } else {
        ReducePassKeepsSlots(pow, ops, ts, i + 2);
      }
    }
  }

  /** The printed result of an expression without parentheses has none either, so a splice
      leaves one "(" fewer: a number prints as digits, a sign and a point, and an error
      message quotes at most a token of that expression. */
  lemma ParenFreeInnerDisplay(pow: Pow, sub: string)
    requires ParenFree(sub)
    ensures ParenFree(Display(Evaluate(pow, sub)))
    decreases OpenCount(sub), 5
  {
    var o := Evaluate(pow, sub);
    if o.Value? {
      DisplayValueParenFree(o.v);
    } else {
      ParenFreeNeverInvalidOperator(pow, sub);
      MessageParenFree(o.error);
    }
  }

  /** Splitting a text without parentheses gives tokens without parentheses. */
  lemma TokensOfParenFree(c: string)
    requires ParenFree(c)
    ensures forall k :: 0 <= k < |Tokenize(c)| ==> ParenFree(Tokenize(c)[k])
  {
    var tokens := Tokenize(c);
    TokenizeRoundTrip(c);
    forall k | 0 <= k < |tokens| ensures ParenFree(tokens[k]) {
      if '(' in tokens[k] { JoinHasTokenChars(tokens, k, '('); }
      if ')' in tokens[k] { JoinHasTokenChars(tokens, k, ')'); }
    }
  }

  /** No two neighbouring entries are both operands: of any two, one is an operator. */
  predicate OperandsSeparated(ts: seq<Token>)
  {
    forall j :: 0 <= j < |ts| - 1 ==> IsOperatorIn(ts[j], Operators) || IsOperatorIn(ts[j + 1], Operators)
  }

  /** An operator read as a number is NaN. */
  lemma OperatorIsNaN(ts: seq<Token>, j: int)
    requires 0 <= j < |ts| && IsOperatorIn(ts[j], Operators)
    ensures NumberAt(ts, j).NaN?
  {
    assert ts[j].text[1..] == [];
  }

  /** A text without parentheses is split into operands with an operator between any two. */
  lemma TokensSeparated(c: string)
    requires ParenFree(c)
    ensures OperandsSeparated(AsTokens(Tokenize(c)))
  {
    var tokens := Tokenize(c);
    var items := AsTokens(tokens);
    TokensOfParenFree(c);
    forall j | 0 <= j < |items| - 1
      ensures IsOperatorIn(items[j], Operators) || IsOperatorIn(items[j + 1], Operators)
    {
      var k := if IsRunToken(tokens[j]) then j + 1 else j;
      assert tokens[k] in tokens && !IsRunToken(tokens[k]);
      assert IsSeparatorToken(tokens[k]) && ParenFree(tokens[k]);
      assert tokens[k][0] in tokens[k];
    }
  }

  /** Collapsing two operands and the operator between them into one value keeps the
      operands separated, since their outer neighbours are operators. */
  lemma SpliceSeparated(ts: seq<Token>, i: int, v: JsNum)
    requires OperandsSeparated(ts)
    requires 1 <= i && i + 1 < |ts|
    requires !IsOperatorIn(ts[i - 1], Operators) && !IsOperatorIn(ts[i + 1], Operators)
    ensures OperandsSeparated(Splice(ts, i - 1, 3, Computed(v)))
  {
    var r := Splice(ts, i - 1, 3, Computed(v));
    assert r == ts[..i - 1] + [Computed(v)] + ts[i + 2..];
    forall j | 0 <= j < |r| - 1
      ensures IsOperatorIn(r[j], Operators) || IsOperatorIn(r[j + 1], Operators)
    {
      if j < i - 2 {
        assert r[j] == ts[j] && r[j + 1] == ts[j + 1];
      } else if j == i - 2 {
        assert r[j] == ts[j] && !IsOperatorIn(ts[j + 1], Operators);
      } else if j == i - 1 {
        assert r[j + 1] == ts[i + 2] && !IsOperatorIn(ts[i + 1], Operators);
      } else {
        assert r[j] == ts[j + 2] && r[j + 1] == ts[j + 3];
      }
    }
  }

  /** A reduction pass that succeeds keeps the operands separated. */
  lemma {:induction false} ReducePassSeparated(pow: Pow, ops: set<char>, ts: seq<Token>, i: int)
    requires ops <= Operators && i >= 1
    requires OperandsSeparated(ts)
    requires ReducePass(pow, ops, ts, i).Ok?
    ensures OperandsSeparated(ReducePass(pow, ops, ts, i).value)
    decreases |ts| - i
  {
    if i < |ts| {
      if IsOperatorIn(ts[i], ops) {
        var r := Apply(pow, ts[i].text[0], NumberAt(ts, i - 1), NumberAt(ts, i + 1));
        assert !NumberAt(ts, i - 1).NaN? && !NumberAt(ts, i + 1).NaN?;
        if IsOperatorIn(ts[i - 1], Operators) { OperatorIsNaN(ts, i - 1); }
        if IsOperatorIn(ts[i + 1], Operators) { OperatorIsNaN(ts, i + 1); }
        SpliceSeparated(ts, i, r.value);
        ReducePassSeparated(pow, ops, Splice(ts, i - 1, 3, Computed(r.value)), i);
      } else {
        ReducePassSeparated(pow, ops, ts, i + 2);
      }
    }
  }

  /** Started after an operand, the fold finds an operator in every slot it reaches: each
      operator it applies is followed by an operand, and that by an operator. */
  lemma {:induction false} FoldNeverInvalidOperator(pow: Pow, ts: seq<Token>, i: int, acc: JsNum)
    requires OperatorSlotsAreText(ts) && OperandsSeparated(ts)
    requires i >= 1 && i % 2 == 1 && i - 1 < |ts| && !IsOperatorIn(ts[i - 1], Operators)
    ensures !(AddSubFold(pow, ts, i, acc).Err? && AddSubFold(pow, ts, i, acc).error.InvalidOperator?)
    decreases |ts| - i
  {
    if i < |ts| {
      assert IsOperatorIn(ts[i], Operators);
      var r := Apply(pow, ts[i].text[0], acc, NumberAt(ts, i + 1));
      if r.Ok? {
        assert i + 1 < |ts|;
        if IsOperatorIn(ts[i + 1], Operators) { OperatorIsNaN(ts, i + 1); }
        FoldNeverInvalidOperator(pow, ts, i + 2, r.value);
      }
    }
  }

  /** On separated operands the operator stages never throw "Invalid operator". */
  lemma ArithmeticNeverInvalidOperator(pow: Pow, items: seq<Token>)
    requires OperatorSlotsAreText(items) && OperandsSeparated(items)
    ensures !(Arithmetic(pow, items).Err? && Arithmetic(pow, items).error.InvalidOperator?)
  {
    if ReducePass(pow, {'^'}, items, 1).Err? {
      ReducePassErrors(pow, {'^'}, items, 1);
    } else {
      var powered := ReducePass(pow, {'^'}, items, 1).value;
      ReducePassKeepsSlots(pow, {'^'}, items, 1);
      ReducePassSeparated(pow, {'^'}, items, 1);
      if ReducePass(pow, {'*', '/'}, powered, 1).Err? {
        ReducePassErrors(pow, {'*', '/'}, powered, 1);
      } else {
        var rest := ReducePass(pow, {'*', '/'}, powered, 1).value;
        ReducePassKeepsSlots(pow, {'*', '/'}, powered, 1);
        ReducePassSeparated(pow, {'*', '/'}, powered, 1);
        if |rest| > 0 && !NumberAt(rest, 0).NaN? {
          if IsOperatorIn(rest[0], Operators) { OperatorIsNaN(rest, 0); }
          FoldNeverInvalidOperator(pow, rest, 1, NumberAt(rest, 0));
        }
      }
    }
  }

  /** An expression without parentheses never fails with "Invalid operator": an operand can
      stand next to an operand only where a group has been replaced by its value. */
  lemma ParenFreeNeverInvalidOperator(pow: Pow, sub: string)
    requires ParenFree(sub)
    ensures !(Evaluate(pow, sub).Failure? && Evaluate(pow, sub).error.InvalidOperator?)
    decreases OpenCount(sub), 4
  {
    var c := StripWhiteSpace(sub);
    if c != [] && AllPermitted(c) && NeverNegative(c) && Depth(c) == 0 {
      var tokens := Tokenize(c);
      assert ParenFree(c);
      TokensOfParenFree(c);
      assert "(" !in tokens;
      CleanedTokens(sub);
      assert ResolveParens(pow, tokens) == Ok(tokens);
      TokensSeparated(c);
      ArithmeticNeverInvalidOperator(pow, AsTokens(tokens));
    }
  }

  /** A reduction pass fails only as an operator of the table does. */
  lemma {:induction false} ReducePassErrors(pow: Pow, ops: set<char>, ts: seq<Token>, i: int)
    requires ops <= Operators && i >= 1
    requires ReducePass(pow, ops, ts, i).Err?
    ensures ReducePass(pow, ops, ts, i).error.InvalidOperands? ||
            ReducePass(pow, ops, ts, i).error == DivisionByZero
    decreases |ts| - i
  {
    if IsOperatorIn(ts[i], ops) {
      var r := Apply(pow, ts[i].text[0], NumberAt(ts, i - 1), NumberAt(ts, i + 1));
      if r.Ok? {
        ReducePassErrors(pow, ops, Splice(ts, i - 1, 3, Computed(r.value)), i);
      }
    } else {
      ReducePassErrors(pow, ops, ts, i + 2);
    }
  }

  /** An InvalidOperator failure of `Arithmetic` names one of the texts it was given. */
  lemma ArithmeticOperatorToken(pow: Pow, items: seq<Token>)
    requires OperatorSlotsAreText(items)
    requires Arithmetic(pow, items).Err? && Arithmetic(pow, items).error.InvalidOperator?
    ensures Text(Arithmetic(pow, items).error.token) in items
  {
    if ReducePass(pow, {'^'}, items, 1).Err? {
      ReducePassErrors(pow, {'^'}, items, 1);
    } else {
      var powered := ReducePass(pow, {'^'}, items, 1).value;
      ReducePassKeepsTexts(pow, {'^'}, items, 1);
      ReducePassKeepsSlots(pow, {'^'}, items, 1);
      if ReducePass(pow, {'*', '/'}, powered, 1).Err? {
        ReducePassErrors(pow, {'*', '/'}, powered, 1);
      } else {
        var multiplied := ReducePass(pow, {'*', '/'}, powered, 1).value;
        ReducePassKeepsTexts(pow, {'*', '/'}, powered, 1);
        ReducePassKeepsSlots(pow, {'*', '/'}, powered, 1);
        FoldOperatorToken(pow, multiplied, 1, NumberAt(multiplied, 0));
      }
    }
  }

  /** An InvalidOperator failure of the fold names the text in one of its operator slots,
      at or after `i`, that is not an operator of the table. */
  lemma {:induction false} FoldOperatorToken(pow: Pow, ts: seq<Token>, i: int, acc: JsNum)
    requires OperatorSlotsAreText(ts)
    requires i >= 1 && i % 2 == 1
    requires AddSubFold(pow, ts, i, acc).Err? && AddSubFold(pow, ts, i, acc).error.InvalidOperator?
    ensures Text(AddSubFold(pow, ts, i, acc).error.token) in ts
    ensures exists j :: i <= j < |ts| && j % 2 == 1 && ts[j] == Text(AddSubFold(pow, ts, i, acc).error.token)
                        && !IsOperatorIn(ts[j], Operators)
    decreases |ts| - i
  {
    if IsOperatorIn(ts[i], Operators) {
      var r := Apply(pow, ts[i].text[0], acc, NumberAt(ts, i + 1));
      FoldOperatorToken(pow, ts, i + 2, r.value);
    } else {
      assert ts[i] == Text(AddSubFold(pow, ts, i, acc).error.token);
    }
  }

  lemma JoinAround(a: seq<string>, x: string, b: seq<string>)
    ensures Join(a + [x] + b) == Join(a) + x + Join(b)
  {
    JoinAppend(a + [x], b);
    JoinAppend(a, [x]);
    assert Join([x]) == x + Join([]);
  }

  lemma OpenCountAround(a: string, x: string, b: string)
    ensures OpenCount(a + x + b) == OpenCount(a) + OpenCount(x) + OpenCount(b)
  {
    OpenCountAppend(a + x, b);
    OpenCountAppend(a, x);
  }

  /** The tokens strictly between the last "(" and the next ")" hold no parenthesis, while
      the whole list holds at least one "(". */
  lemma GroupInsideIsParenFree(ts: seq<string>, open: int, close: int)
    requires ParenTokens(ts)
    requires 0 <= open < close < |ts| && ts[open] == "("
    requires forall j :: open < j < |ts| ==> ts[j] != "("
    requires forall j :: open < j < close ==> ts[j] != ")"
    ensures ParenFree(Join(ts[open + 1..close]))
    ensures OpenCount(Join(ts[open + 1..close])) == 0 < OpenCount(Join(ts))
  {
    InnerTokensParenFree(ts, open, close, ts[open + 1..close]);
    JoinParenFree(ts[open + 1..close]);
    OpenCountZero(Join(ts[open + 1..close]));
    OpenTokenCounts(ts, open);
  }

  lemma InnerTokensParenFree(ts: seq<string>, open: int, close: int, inner: seq<string>)
    requires ParenTokens(ts)
    requires 0 <= open < close <= |ts| && inner == ts[open + 1..close]
    requires forall j :: open < j < |ts| ==> ts[j] != "("
    requires forall j :: open < j < close ==> ts[j] != ")"
    ensures forall j :: 0 <= j < |inner| ==> ParenFree(inner[j])
  {
    forall j | 0 <= j < |inner| ensures ParenFree(inner[j]) {
      assert inner[j] == ts[open + 1 + j] && ts[open + 1 + j] in ts;
    }
  }

  /** A "(" token anywhere puts a "(" in the joined text. */
  lemma OpenTokenCounts(ts: seq<string>, open: int)
    requires 0 <= open < |ts| && ts[open] == "("
    ensures OpenCount(Join(ts)) > 0
  {
    assert ts == ts[..open] + [ts[open]] + ts[open + 1..];
    JoinAround(ts[..open], "(", ts[open + 1..]);
    OpenCountAround(Join(ts[..open]), "(", Join(ts[open + 1..]));
  }

  /** One round of `ResolveParens` splices a parenthesis-free text over one group: one "("
      fewer, so the loop ends. */
  lemma SpliceShrinks(pow: Pow, ts: seq<string>, open: int, close: int)
    requires ParenTokens(ts)
    requires 0 <= open < close < |ts| && ts[open] == "(" && ts[close] == ")"
    requires forall j :: open < j < |ts| ==> ts[j] != "("
    requires forall j :: open < j < close ==> ts[j] != ")"
    requires ParenFree(Join(ts[open + 1..close]))
    requires OpenCount(Join(ts[open + 1..close])) == 0 < OpenCount(Join(ts))
    ensures var sub := Join(ts[open + 1..close]);
      var next := ts[..open] + [Display(Evaluate(pow, sub))] + ts[close + 1..];
      ParenTokens(next) && OpenCount(Join(next)) == OpenCount(Join(ts)) - 1
    decreases OpenCount(Join(ts)), 0, 0
  {
    var sub := Join(ts[open + 1..close]);
    ParenFreeInnerDisplay(pow, sub);
    SpliceParenFree(ts, open, close, Display(Evaluate(pow, sub)));
  }

  /** Replacing a group `( ... )` by a parenthesis-free text removes one "(". */
  lemma SpliceParenFree(ts: seq<string>, open: int, close: int, shown: string)
    requires ParenTokens(ts) && ParenFree(shown)
    requires 0 <= open < close < |ts| && ts[open] == "(" && ts[close] == ")"
    requires OpenCount(Join(ts[open + 1..close])) == 0
    ensures var next := ts[..open] + [shown] + ts[close + 1..];
      ParenTokens(next) && OpenCount(Join(next)) == OpenCount(Join(ts)) - 1
  {
    var a, b := ts[..open], ts[close + 1..];
    var next := a + [shown] + b;
    assert forall t :: t in next ==> t in a || t == shown || t in b;
    GroupSplit(ts, open, close);
    GroupCount(a, ts[open + 1..close], b);
    OpenCountZero(shown);
    JoinAround(a, shown, b);
    OpenCountAround(Join(a), shown, Join(b));
  }

  lemma GroupSplit(ts: seq<string>, open: int, close: int)
    requires 0 <= open < close < |ts|
    ensures ts == ts[..open] + [ts[open]] + (ts[open + 1..close] + [ts[close]] + ts[close + 1..])
  {
    assert ts[open + 1..] == ts[open + 1..close] + [ts[close]] + ts[close + 1..];
    assert ts[open..] == [ts[open]] + ts[open + 1..];
    assert ts == ts[..open] + ts[open..];
  }

  /** The "(" of a group counts once, besides what surrounds it. */
  lemma GroupCount(a: seq<string>, inner: seq<string>, b: seq<string>)
    ensures OpenCount(Join(a + ["("] + (inner + [")"] + b))) ==
      OpenCount(Join(a)) + 1 + OpenCount(Join(inner)) + OpenCount(Join(b))
  {
    JoinAround(a, "(", inner + [")"] + b);
    JoinAround(inner, ")", b);
    OpenCountAround(Join(a), "(", Join(inner + [")"] + b));
    OpenCountAround(Join(inner), ")", Join(b));
    assert OpenCount("(") == 1;
    assert OpenCount(")") == 0;
  }

  lemma {:induction false} JoinParenFree(ts: seq<string>)
    requires forall j :: 0 <= j < |ts| ==> ParenFree(ts[j])
    ensures ParenFree(Join(ts))
  {
    if ts != [] {
      JoinParenFree(ts[1..]);
      ParenFreeAppend(ts[0], Join(ts[1..]));
    }
  }
}
