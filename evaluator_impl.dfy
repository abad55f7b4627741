/** `evaluateExpression` (static/script.js:150-270) as the code computes it: the
    parenthesis counter, the `while` loop over groups with its recursive call, the two
    index-rewinding reduction loops and the additive fold, each proved to compute the stage
    of `Evaluator.Evaluate` it stands for. The token list is a local sequence that each step
    reassigns, as the code's `splice` calls change the array in place. */
module EvaluatorImpl {
  import opened JsNumbers
  import opened ExpressionText
  import opened Evaluator

  /** Lines 198-204: count parentheses left to right, failing at the first point where more
      have closed than opened, then require the count to end at zero. */
  method CheckParentheses(c: string) returns (r: Result<bool>)
    ensures r.Err? <==> !NeverNegative(c) || Depth(c) != 0
    ensures r.Err? ==> r.error == (if !NeverNegative(c) then UnmatchedClosing else UnmatchedOpening)
  {
    var count := 0;
    NeverNegativeIff(c);
    for k := 0 to |c|
      invariant count == Depth(c[..k])
      invariant forall j :: 0 <= j <= k ==> Depth(c[..j]) >= 0
    {
      if c[k] == '(' {
        count := count + 1;
      }
      if c[k] == ')' {
        count := count - 1;
      }
      assert c[..k + 1][..k] == c[..k];
      if count < 0 {
        return Err(UnmatchedClosing);
      }
    }
    assert c[..|c|] == c;
    if count != 0 {
      return Err(UnmatchedOpening);
    }
    return Ok(true);
  }

  /** Lines 207-218: while a "(" is left, evaluate the tokens between the last "(" and the
      next ")" and splice the printed result over the group. */
  method ResolveParentheses(pow: Pow, ts: seq<string>) returns (r: Result<seq<string>>)
    requires ParenTokens(ts)
    ensures r == ResolveParens(pow, ts)
    decreases OpenCount(Join(ts)), 0
  {
    var tokens := ts;
    while "(" in tokens
      invariant ParenTokens(tokens)
      invariant OpenCount(Join(tokens)) <= OpenCount(Join(ts))
      invariant ResolveParens(pow, tokens) == ResolveParens(pow, ts)
      decreases OpenCount(Join(tokens))
    {
      var open := LastIndexOf(tokens, "(");
      var close := IndexOf(tokens, ")", open);
      if close == -1 {
        return Err(MismatchedParentheses);
      }
      GroupInsideIsParenFree(tokens, open, close);
      var sub := Join(tokens[open + 1..close]);
      var result := EvaluateExpression(pow, sub);
      SpliceIsInnermost(pow, tokens, open, close, result);
      tokens := Splice(tokens, open, close - open + 1, Display(result));
    }
    return Ok(tokens);
  }

  /** The `splice` of line 216 is the round `ResolveInnermost` specifies. */
  lemma SpliceIsInnermost(pow: Pow, tokens: seq<string>, open: int, close: int, result: Outcome)
    requires ParenTokens(tokens) && "(" in tokens
    requires open == LastIndexOf(tokens, "(") && close == IndexOf(tokens, ")", open) && close >= 0
    requires result == Evaluate(pow, Join(tokens[open + 1..close]))
    ensures Splice(tokens, open, close - open + 1, Display(result)) == ResolveInnermost(pow, tokens, open, close)
  {
    SpliceGroup(tokens, open, close, Display(result));
  }

  /** `splice(open, close - open + 1, item)` replaces `tokens[open..close + 1]` by `item`. */
  lemma SpliceGroup<T>(s: seq<T>, open: int, close: int, item: T)
    requires 0 <= open <= close < |s|
    ensures Splice(s, open, close - open + 1, item) == s[..open] + [item] + s[close + 1..]
  {
  }

  /** Lines 221-229 (`ops` = {'^'}) and 232-240 (`ops` = {'*', '/'}): walk the odd
      indices; at an operator of `ops` replace the triple around it by its value and step
      the index back by two, so the next round looks at the same index again. */
  method ReduceLeftToRight(pow: Pow, ops: set<char>, items: seq<Token>) returns (r: Result<seq<Token>>)
    requires ops <= Operators
    ensures r == ReducePass(pow, ops, items, 1)
  {
    var tokens := items;
    var i := 1;
    while i < |tokens|
      invariant i >= 1
      invariant ReducePass(pow, ops, tokens, i) == ReducePass(pow, ops, items, 1)
      decreases |tokens| - i
    {
      if IsOperatorIn(tokens[i], ops) {
        var result := Apply(pow, tokens[i].text[0], NumberAt(tokens, i - 1), NumberAt(tokens, i + 1));
        if result.Err? {
          return Err(result.error);
        }
        tokens := Splice(tokens, i - 1, 3, Computed(result.value));
        i := i - 2;
      }
      i := i + 2;
    }
    return Ok(tokens);
  }

  /** Lines 248-256: start from the first number and fold each operator and the number after
      it into the running result; a slot holding no operator of the table is refused. */
  method FoldLeft(pow: Pow, tokens: seq<Token>) returns (r: Result<JsNum>)
    requires OperatorSlotsAreText(tokens)
    ensures r == AddSubFold(pow, tokens, 1, NumberAt(tokens, 0))
  {
    var result := NumberAt(tokens, 0);
    var i := 1;
    while i < |tokens|
      invariant i >= 1 && i % 2 == 1
      invariant AddSubFold(pow, tokens, i, result) == AddSubFold(pow, tokens, 1, NumberAt(tokens, 0))
      decreases |tokens| - i
    {
      if !IsOperatorIn(tokens[i], Operators) {
        return Err(InvalidOperator(tokens[i].text));
      }
      var next := Apply(pow, tokens[i].text[0], result, NumberAt(tokens, i + 1));
      if next.Err? {
        return Err(next.error);
      }
      result := next.value;
      i := i + 2;
    }
    return Ok(result);
  }

  /** `evaluateExpression(expression)`, the `catch` turning every thrown error into a
      `Failure`. */
  method EvaluateExpression(pow: Pow, expression: string) returns (r: Outcome)
    ensures r == Evaluate(pow, expression)
    decreases OpenCount(expression), 1
  {
    var c := StripWhiteSpace(expression);
    if c == [] {
      return Failure(EmptyExpression);
    }
    if !AllPermitted(c) {
      return Failure(InvalidCharacters);
    }
    var tokens := Tokenize(c);
    var balanced := CheckParentheses(c);
    if balanced.Err? {
      return Failure(balanced.error);
    }
    CleanedTokens(expression);
    var resolved := ResolveParentheses(pow, tokens);
    if resolved.Err? {
      return Failure(resolved.error);
    }
    var items := AsTokens(resolved.value);
    var powered := ReduceLeftToRight(pow, {'^'}, items);
    if powered.Err? {
      return Failure(powered.error);
    }
    ReducePassKeepsSlots(pow, {'^'}, items, 1);
    var multiplied := ReduceLeftToRight(pow, {'*', '/'}, powered.value);
    if multiplied.Err? {
      return Failure(multiplied.error);
    }
    ReducePassKeepsSlots(pow, {'*', '/'}, powered.value, 1);
    var rest := multiplied.value;
    if |rest| > 0 && NumberAt(rest, 0).NaN? {
      return Failure(MissingLeadingNumber);
    }
    var result := FoldLeft(pow, rest);
    if result.Err? {
      return Failure(result.error);
    }
    if result.value.NaN? || result.value.Infinity? {
      return Failure(InvalidResult);
    }
    return Value(Round3(result.value.value));
  }
}
