/** What `evaluateExpression` (static/script.js:150-270) promises, proved about
    `Evaluator.Evaluate`: which input gets which error, that the "Mismatched parentheses"
    branch can never be taken, the order in which operators are applied, and the form of
    the numbers it returns. */
module EvaluatorFacts {
  import opened JsNumbers
  import opened ExpressionText
  import opened Evaluator

  // ---------------------------------------------------------------------------------
  // Which stage can throw what

  /** The parenthesis loop throws only its own message; errors of a group's evaluation are
      spliced in as text, not thrown. */
  lemma {:induction false} ResolveParensErrors(pow: Pow, ts: seq<string>)
    requires ParenTokens(ts)
    requires ResolveParens(pow, ts).Err?
    ensures ResolveParens(pow, ts).error == MismatchedParentheses
    decreases OpenCount(Join(ts))
  {
    if "(" in ts {
      var open := LastIndexOf(ts, "(");
      var close := IndexOf(ts, ")", open);
      if close >= 0 {
        ResolveParensErrors(pow, ResolveInnermost(pow, ts, open, close));
      }
    }
  }

  /** The fold throws only as an operator of the table does, or at a slot without one. */
  lemma {:induction false} FoldErrors(pow: Pow, ts: seq<Token>, i: int, acc: JsNum)
    requires OperatorSlotsAreText(ts) && i >= 1 && i % 2 == 1
    requires AddSubFold(pow, ts, i, acc).Err?
    ensures var e := AddSubFold(pow, ts, i, acc).error;
      e.InvalidOperands? || e == DivisionByZero || e.InvalidOperator?
    decreases |ts| - i
  {
    if IsOperatorIn(ts[i], Operators) {
      var r := Apply(pow, ts[i].text[0], acc, NumberAt(ts, i + 1));
      if r.Ok? {
        FoldErrors(pow, ts, i + 2, r.value);
      }
    }
  }

  /** When every slot before `k` applied its operator without error and the text at slot `k`
      is not an operator of the table, the fold stops there and quotes that text. */
  lemma {:induction false} FoldStopsAtText(pow: Pow, ts: seq<Token>, i: int, acc: JsNum, k: int)
    requires OperatorSlotsAreText(ts) && i >= 1 && i % 2 == 1
    requires i <= k < |ts| && k % 2 == 1
    requires AddSubFold(pow, ts[..k], i, acc).Ok?
    requires !IsOperatorIn(ts[k], Operators)
    ensures AddSubFold(pow, ts, i, acc) == Err(InvalidOperator(ts[k].text))
    decreases k - i
  {
    if i < k {
      var prefix := ts[..k];
      assert prefix[i] == ts[i] && NumberAt(prefix, i + 1) == NumberAt(ts, i + 1);
      var r := Apply(pow, ts[i].text[0], acc, NumberAt(ts, i + 1));
      FoldStopsAtText(pow, ts, i + 2, r.value, k);
    }
  }

  /** The operator stages throw only the messages of the operator table, "Expression must
      start with a number" and "Invalid operator". */
  lemma ArithmeticErrors(pow: Pow, items: seq<Token>)
    requires OperatorSlotsAreText(items)
    requires Arithmetic(pow, items).Err?
    ensures var e := Arithmetic(pow, items).error;
      e.InvalidOperands? || e == DivisionByZero || e == MissingLeadingNumber || e.InvalidOperator?
  {
    if ReducePass(pow, {'^'}, items, 1).Err? {
      ReducePassErrors(pow, {'^'}, items, 1);
    } else {
      var powered := ReducePass(pow, {'^'}, items, 1).value;
      ReducePassKeepsSlots(pow, {'^'}, items, 1);
      if ReducePass(pow, {'*', '/'}, powered, 1).Err? {
        ReducePassErrors(pow, {'*', '/'}, powered, 1);
      } else {
        var multiplied := ReducePass(pow, {'*', '/'}, powered, 1).value;
        ReducePassKeepsSlots(pow, {'*', '/'}, powered, 1);
        if !(|multiplied| > 0 && NumberAt(multiplied, 0).NaN?) {
          FoldErrors(pow, multiplied, 1, NumberAt(multiplied, 0));
        }
      }
    }
  }

  /** Every failure after validation comes from the parenthesis loop, the operator stages or
      the final check. */
  lemma LaterErrors(pow: Pow, expression: string)
    requires Evaluate(pow, expression).Failure?
    requires var c := StripWhiteSpace(expression);
      c != [] && AllPermitted(c) && NeverNegative(c) && Depth(c) == 0
    ensures var e := Evaluate(pow, expression).error;
      e == MismatchedParentheses || e.InvalidOperands? || e == DivisionByZero ||
      e == MissingLeadingNumber || e.InvalidOperator? || e == InvalidResult
  {
    var tokens := Tokenize(StripWhiteSpace(expression));
    CleanedTokens(expression);
    var resolved := ResolveParens(pow, tokens);
    if resolved.Err? {
      ResolveParensErrors(pow, tokens);
    } else {
      var items := AsTokens(resolved.value);
      if Arithmetic(pow, items).Err? {
        ArithmeticErrors(pow, items);
      }
    }
  }

  // ---------------------------------------------------------------------------------
  // The validation messages, each exactly for the inputs it describes

  /** "Empty expression" exactly when nothing but white space was given. */
  lemma EmptyExpressionIff(pow: Pow, expression: string)
    ensures Evaluate(pow, expression) == Failure(EmptyExpression) <==>
      forall i :: 0 <= i < |expression| ==> IsWhiteSpace(expression[i])
  {
    var c := StripWhiteSpace(expression);
    if c != [] {
      assert c[0] in c;
      if Evaluate(pow, expression).Failure? && AllPermitted(c) && NeverNegative(c) && Depth(c) == 0 {
        LaterErrors(pow, expression);
      }
    }
  }

  /** "Invalid characters in expression" exactly when some character is neither white space
      nor one of the digits, the operators, the parentheses and '.'. */
  lemma InvalidCharactersIff(pow: Pow, expression: string)
    ensures Evaluate(pow, expression) == Failure(InvalidCharacters) <==>
      exists i :: 0 <= i < |expression| && !IsWhiteSpace(expression[i]) && !IsPermitted(expression[i])
  {
    if exists i :: 0 <= i < |expression| && !IsWhiteSpace(expression[i]) && !IsPermitted(expression[i]) {
      var i :| 0 <= i < |expression| && !IsWhiteSpace(expression[i]) && !IsPermitted(expression[i]);
      InvalidCharacterFound(pow, expression, i);
    } else {
      NoInvalidCharacter(pow, expression);
    }
  }

  /** One character that is neither white space nor permitted makes the whole input fail. */
  lemma InvalidCharacterFound(pow: Pow, expression: string, i: int)
    requires 0 <= i < |expression| && !IsWhiteSpace(expression[i]) && !IsPermitted(expression[i])
    ensures Evaluate(pow, expression) == Failure(InvalidCharacters)
  {
    var c := StripWhiteSpace(expression);
    AllPermittedIff(c);
    assert expression[i] in c;
  }

  /** Without such a character the input never fails with `InvalidCharacters`. */
  lemma NoInvalidCharacter(pow: Pow, expression: string)
    requires forall i :: 0 <= i < |expression| ==> IsWhiteSpace(expression[i]) || IsPermitted(expression[i])
    ensures Evaluate(pow, expression) != Failure(InvalidCharacters)
  {
    StrippedPermitted(expression);
    var c := StripWhiteSpace(expression);
    if c != [] && NeverNegative(c) && Depth(c) == 0 && Evaluate(pow, expression).Failure? {
      LaterErrors(pow, expression);
    }
  }

  lemma StrippedPermitted(expression: string)
    requires forall i :: 0 <= i < |expression| ==> IsWhiteSpace(expression[i]) || IsPermitted(expression[i])
    ensures AllPermitted(StripWhiteSpace(expression))
  {
    var c := StripWhiteSpace(expression);
    AllPermittedIff(c);
    forall i | 0 <= i < |c| ensures IsPermitted(c[i]) {
      assert c[i] in c;
    }
  }

  /** "Unmatched closing parenthesis" exactly for a permitted text in which, read left to
      right, a ')' closes more parentheses than have been opened. */
  lemma UnmatchedClosingIff(pow: Pow, expression: string)
    ensures var c := StripWhiteSpace(expression);
      Evaluate(pow, expression) == Failure(UnmatchedClosing) <==>
      c != [] && AllPermitted(c) && exists k :: 0 <= k <= |c| && Depth(c[..k]) < 0
  {
    var c := StripWhiteSpace(expression);
    NeverNegativeIff(c);
    if c != [] && AllPermitted(c) && NeverNegative(c) && Depth(c) == 0 && Evaluate(pow, expression).Failure? {
      LaterErrors(pow, expression);
    }
  }

  /** "Unmatched opening parenthesis" exactly for a permitted text that never closes too
      many parentheses but leaves some open. */
  lemma UnmatchedOpeningIff(pow: Pow, expression: string)
    ensures var c := StripWhiteSpace(expression);
      Evaluate(pow, expression) == Failure(UnmatchedOpening) <==>
      c != [] && AllPermitted(c) && NeverNegative(c) && Depth(c) > 0
  {
    var c := StripWhiteSpace(expression);
    if c != [] && AllPermitted(c) && NeverNegative(c) && Depth(c) != 0 {
      NeverNegativeIff(c);
      assert c[..|c|] == c;
    }
    if c != [] && AllPermitted(c) && NeverNegative(c) && Depth(c) == 0 && Evaluate(pow, expression).Failure? {
      LaterErrors(pow, expression);
    }
  }

  // ---------------------------------------------------------------------------------
  // The branch throwing "Mismatched parentheses" (line 211) is never taken

  lemma {:induction false} DepthOfParenFree(w: string)
    requires ParenFree(w)
    ensures Depth(w) == 0
  {
    if w != [] {
      assert w[..|w| - 1] + [w[|w| - 1]] == w;
      DepthOfParenFree(w[..|w| - 1]);
    }
  }

  /** The depth after a closed group is the depth before it. */
  lemma DepthAcrossGroup(x: string, y: string, u: string)
    requires ParenFree(y)
    ensures Depth(x + "(" + (y + ")" + u)) == Depth(x) + Depth(u)
  {
    DepthAppend(x, "(");
    DepthAppend(x + "(", y + ")" + u);
    DepthAppend(y + ")", u);
    DepthAppend(y, ")");
    DepthOfParenFree(y);
    assert Depth("(") == 1 && Depth(")") == -1 by {
      assert "("[..0] == [] && ")"[..0] == [];
    }
  }

  /** Replacing a closed group of a balanced text by a text without parentheses leaves the
      text balanced. */
  lemma SpliceKeepsBalance(x: string, y: string, z: string, w: string)
    requires ParenFree(y) && ParenFree(w)
    requires NeverNegative(x + "(" + (y + ")" + z))
    ensures NeverNegative(x + w + z)
    ensures Depth(x + w + z) == Depth(x + "(" + (y + ")" + z))
  {
    var s := x + "(" + (y + ")" + z);
    var t := x + w + z;
    NeverNegativeIff(s);
    NeverNegativeIff(t);
    DepthAcrossGroup(x, y, z);
    DepthAppend(x + w, z);
    DepthAppend(x, w);
    DepthOfParenFree(w);
    forall k | 0 <= k <= |t| ensures Depth(t[..k]) >= 0 {
      SplicePrefixDepth(x, y, z, w, k);
    }
  }

  /** Each prefix of the spliced text has the depth of some prefix of the original. */
  lemma SplicePrefixDepth(x: string, y: string, z: string, w: string, k: int)
    requires ParenFree(y) && ParenFree(w)
    requires forall i :: 0 <= i <= |x + "(" + (y + ")" + z)| ==> Depth((x + "(" + (y + ")" + z))[..i]) >= 0
    requires 0 <= k <= |x + w + z|
    ensures Depth((x + w + z)[..k]) >= 0
  {
    var s := x + "(" + (y + ")" + z);
    var t := x + w + z;
    if k <= |x| {
      assert t[..k] == s[..k];
    } else if k <= |x| + |w| {
      var v := w[..k - |x|];
      assert t[..k] == x + v;
      assert ParenFree(v) by {
        assert forall c :: c in v ==> c in w;
      }
      DepthAppend(x, v);
      DepthOfParenFree(v);
      assert s[..|x|] == x;
    } else {
      var m := k - |x| - |w|;
      var u := z[..m];
      assert t[..k] == x + w + u;
      DepthAppend(x + w, u);
      DepthAppend(x, w);
      DepthOfParenFree(w);
      assert s[..|x| + 1 + |y| + 1 + m] == x + "(" + (y + ")" + u);
      DepthAcrossGroup(x, y, u);
    }
  }

  /** The text of a list whose last "(" has no ")" after it ends with open parentheses. */
  lemma UnclosedGroup(ts: seq<string>, open: int)
    requires ParenTokens(ts)
    requires 0 <= open < |ts| && ts[open] == "("
    requires forall j :: open < j < |ts| ==> ts[j] != "(" && ts[j] != ")"
    requires NeverNegative(Join(ts))
    ensures Depth(Join(ts)) > 0
  {
    var a, rest := ts[..open], ts[open + 1..];
    assert ts == a + [ts[open]] + rest;
    InnerTokensParenFree(ts, open, |ts|, rest);
    JoinParenFree(rest);
    JoinAround(a, "(", rest);
    OpenThenParenFree(Join(a), Join(rest));
    BalancedPrefix(Join(a), "(", Join(rest));
  }

  /** Where the counter never goes below zero, it is not below zero after any prefix. */
  lemma BalancedPrefix(a: string, x: string, r: string)
    requires NeverNegative(a + x + r)
    ensures Depth(a) >= 0
  {
    NeverNegativeIff(a + x + r);
    assert (a + x + r)[..|a|] == a;
  }

  /** A "(" followed by text without parentheses leaves the counter one higher. */
  lemma OpenThenParenFree(a: string, r: string)
    requires ParenFree(r)
    ensures Depth(a + "(" + r) == Depth(a) + 1
  {
    DepthAppend(a, "(");
    DepthAppend(a + "(", r);
    DepthOfParenFree(r);
    assert "("[..0] == [];
  }

  /** Splicing a text without parentheses over a group keeps a balanced list balanced. */
  lemma SpliceBalanced(ts: seq<string>, open: int, close: int, shown: string)
    requires 0 <= open < close < |ts| && ts[open] == "(" && ts[close] == ")"
    requires ParenFree(Join(ts[open + 1..close])) && ParenFree(shown)
    requires NeverNegative(Join(ts)) && Depth(Join(ts)) == 0
    ensures var next := ts[..open] + [shown] + ts[close + 1..];
      NeverNegative(Join(next)) && Depth(Join(next)) == 0
  {
    var a, inner, b := ts[..open], ts[open + 1..close], ts[close + 1..];
    GroupSplit(ts, open, close);
    JoinAround(a, "(", inner + [")"] + b);
    JoinAround(inner, ")", b);
    JoinAround(a, shown, b);
    SpliceKeepsBalance(Join(a), Join(inner), Join(b), shown);
  }

  /** One round of the loop keeps a balanced list balanced. */
  lemma GroupSpliceBalanced(pow: Pow, ts: seq<string>, open: int, close: int)
    requires 0 <= open < close < |ts| && ts[open] == "(" && ts[close] == ")"
    requires ParenFree(Join(ts[open + 1..close]))
    requires NeverNegative(Join(ts)) && Depth(Join(ts)) == 0
    ensures var next := ts[..open] + [Display(Evaluate(pow, Join(ts[open + 1..close])))] + ts[close + 1..];
      NeverNegative(Join(next)) && Depth(Join(next)) == 0
  {
    var sub := Join(ts[open + 1..close]);
    ParenFreeInnerDisplay(pow, sub);
    SpliceBalanced(ts, open, close, Display(Evaluate(pow, sub)));
  }

  /** On a balanced list the loop always finds the ")" of the last "(", so it never throws. */
  lemma {:induction false} BalancedResolves(pow: Pow, ts: seq<string>)
    requires ParenTokens(ts)
    requires NeverNegative(Join(ts)) && Depth(Join(ts)) == 0
    ensures ResolveParens(pow, ts).Ok?
    decreases OpenCount(Join(ts))
  {
    if "(" in ts {
      var open := LastIndexOf(ts, "(");
      var close := IndexOf(ts, ")", open);
      if close < 0 {
        UnclosedGroup(ts, open);
        assert false;
      }
      InnermostBalanced(pow, ts, open, close);
      BalancedResolves(pow, ResolveInnermost(pow, ts, open, close));
    }
  }

  /** One round of the loop on a balanced list leaves it balanced. */
  lemma InnermostBalanced(pow: Pow, ts: seq<string>, open: int, close: int)
    requires ParenTokens(ts) && "(" in ts
    requires open == LastIndexOf(ts, "(") && close == IndexOf(ts, ")", open) && close >= 0
    requires NeverNegative(Join(ts)) && Depth(Join(ts)) == 0
    ensures var next := ResolveInnermost(pow, ts, open, close);
      NeverNegative(Join(next)) && Depth(Join(next)) == 0
  {
    GroupInsideIsParenFree(ts, open, close);
    GroupSpliceBalanced(pow, ts, open, close);
    var next := ResolveInnermost(pow, ts, open, close);
    assert next == ts[..open] + [Display(Evaluate(pow, Join(ts[open + 1..close])))] + ts[close + 1..];
  }

  /** No input makes `evaluateExpression` answer "Mismatched parentheses": the balance check
      before the loop already rules out every list on which the loop would throw it. */
  lemma NeverMismatched(pow: Pow, expression: string)
    ensures Evaluate(pow, expression) != Failure(MismatchedParentheses)
  {
    var c := StripWhiteSpace(expression);
    if c != [] && AllPermitted(c) && NeverNegative(c) && Depth(c) == 0 {
      var tokens := Tokenize(c);
      CleanedTokens(expression);
      TokenizeRoundTrip(c);
      BalancedResolves(pow, tokens);
      var items := AsTokens(ResolveParens(pow, tokens).value);
      if Arithmetic(pow, items).Err? {
        ArithmeticErrors(pow, items);
      }
    }
  }

  // ---------------------------------------------------------------------------------
  // Precedence: what the passes of lines 221-240 leave to the fold of lines 248-256

  /** No operator slot holds an operator of `ops`. */
  predicate FreeOf(ts: seq<Token>, ops: set<char>)
  {
    forall j :: 0 <= j < |ts| && j % 2 == 1 ==> !IsOperatorIn(ts[j], ops)
  }

  /** A pass leaves no operator of its own set between two operands. */
  lemma {:induction false} ReducePassClears(pow: Pow, ops: set<char>, ts: seq<Token>, i: int)
    requires ops <= Operators && i >= 1 && i % 2 == 1
    requires forall j :: 0 <= j < i && j < |ts| && j % 2 == 1 ==> !IsOperatorIn(ts[j], ops)
    requires ReducePass(pow, ops, ts, i).Ok?
    ensures FreeOf(ReducePass(pow, ops, ts, i).value, ops)
    decreases |ts| - i
  {
    if i < |ts| {
      if IsOperatorIn(ts[i], ops) {
        var r := Apply(pow, ts[i].text[0], NumberAt(ts, i - 1), NumberAt(ts, i + 1)).value;
        var next := Splice(ts, i - 1, 3, Computed(r));
        assert forall j :: 0 <= j < i - 1 ==> next[j] == ts[j];
        ReducePassClears(pow, ops, next, i);
      } else {
        ReducePassClears(pow, ops, ts, i + 2);
      }
    }
  }

  /** A pass never moves an entry from an operand slot to an operator slot, so it brings no
      new operator between two operands. */
  lemma {:induction false} ReducePassKeepsFree(pow: Pow, ops: set<char>, other: set<char>, ts: seq<Token>, i: int)
    requires ops <= Operators && i >= 1 && i % 2 == 1
    requires FreeOf(ts, other)
    requires ReducePass(pow, ops, ts, i).Ok?
    ensures FreeOf(ReducePass(pow, ops, ts, i).value, other)
    decreases |ts| - i
  {
    if i < |ts| {
      if IsOperatorIn(ts[i], ops) {
        var r := Apply(pow, ts[i].text[0], NumberAt(ts, i - 1), NumberAt(ts, i + 1)).value;
        var next := Splice(ts, i - 1, 3, Computed(r));
        assert i + 1 < |ts|;
        assert forall j :: 0 <= j < i - 1 ==> next[j] == ts[j];
        assert forall j :: i <= j < |next| ==> next[j] == ts[j + 2];
        ReducePassKeepsFree(pow, ops, other, next, i);
      } else {
        ReducePassKeepsFree(pow, ops, other, ts, i + 2);
      }
    }
  }

  /** Exponents before products and quotients before sums: once both passes are done, every
      operator between two operands is '+' or '-' (or no operator at all, which the fold
      reports as "Invalid operator"). */
  lemma OnlySumsAreFolded(pow: Pow, items: seq<Token>)
    requires OperatorSlotsAreText(items)
    requires Reduce(pow, items).Ok?
    ensures FreeOf(Reduce(pow, items).value, {'^', '*', '/'})
  {
    var powered := ReducePass(pow, {'^'}, items, 1).value;
    ReducePassClears(pow, {'^'}, items, 1);
    var multiplied := ReducePass(pow, {'*', '/'}, powered, 1).value;
    ReducePassClears(pow, {'*', '/'}, powered, 1);
    ReducePassKeepsFree(pow, {'*', '/'}, {'^'}, powered, 1);
    assert multiplied == Reduce(pow, items).value;
  }

  // ---------------------------------------------------------------------------------
  // Left to right: a pass folds each run of its operators from the left

  /** The number an entry stands for. */
  function NumberOf(t: Token): JsNum
  {
    match t
    case Text(s) => ParseFloat(s)
    case Computed(n) => n
  }

  /** A reference for one pass without index arithmetic: walk the operand `x` and what
      follows it once, folding every run of operands joined by operators of `ops` from the
      left into one number, and keeping every other operator and operand as it is. */
  function ChainFold(pow: Pow, ops: set<char>, x: Token, rest: seq<Token>): Result<seq<Token>>
    requires ops <= Operators
    decreases |rest|
  {
    if rest == [] then Ok([x])
    else if IsOperatorIn(rest[0], ops) then
      var r :- Apply(pow, rest[0].text[0], NumberOf(x), NumberAt(rest, 1));
      ChainFold(pow, ops, Computed(r), if |rest| >= 2 then rest[2..] else [])
    else if |rest| == 1 then Ok([x, rest[0]])
    else
      var tail :- ChainFold(pow, ops, rest[1], rest[2..]);
      Ok([x, rest[0]] + tail)
  }

  /** The result of `r` behind an unchanged prefix. */
  function After(done: seq<Token>, r: Result<seq<Token>>): Result<seq<Token>>
  {
    match r
    case Ok(ts) => Ok(done + ts)
    case Err(e) => Err(e)
  }

  /** The loop at an operator of its set: the triple becomes one number, the index stays. */
  lemma ReduceAtOperator(pow: Pow, ops: set<char>, done: seq<Token>, x: Token, rest: seq<Token>)
    requires ops <= Operators && rest != [] && IsOperatorIn(rest[0], ops)
    ensures var r := Apply(pow, rest[0].text[0], NumberOf(x), NumberAt(rest, 1));
      var more := if |rest| >= 2 then rest[2..] else [];
      ReducePass(pow, ops, done + [x] + rest, |done| + 1) ==
        if r.Err? then Err(r.error) else ReducePass(pow, ops, done + [Computed(r.value)] + more, |done| + 1)
  {
    var ts := done + [x] + rest;
    var i := |done| + 1;
    assert ts[i - 1] == x && ts[i] == rest[0];
    assert NumberAt(ts, i - 1) == NumberOf(x);
    assert NumberAt(ts, i + 1) == NumberAt(rest, 1);
    var r := Apply(pow, rest[0].text[0], NumberOf(x), NumberAt(rest, 1));
    if r.Ok? {
      SpliceOverTriple(done, x, rest, Computed(r.value));
    }
  }

  lemma SpliceOverTriple<T>(done: seq<T>, x: T, rest: seq<T>, c: T)
    requires rest != []
    ensures Splice(done + [x] + rest, |done|, 3, c) == done + [c] + (if |rest| >= 2 then rest[2..] else [])
  {
    var ts := done + [x] + rest;
    assert ts[..|done|] == done;
    if |rest| >= 2 {
      assert ts[|done| + 3..] == rest[2..];
    } else {
      assert |done| + 3 > |ts|;
    }
  }

  /** The loop at any other entry: it moves on by two. */
  lemma ReduceAtOther(pow: Pow, ops: set<char>, done: seq<Token>, x: Token, rest: seq<Token>)
    requires ops <= Operators && rest != [] && !IsOperatorIn(rest[0], ops)
    ensures |rest| == 1 ==> ReducePass(pow, ops, done + [x] + rest, |done| + 1) == Ok(done + [x, rest[0]])
    ensures |rest| >= 2 ==>
      (ReducePass(pow, ops, done + [x] + rest, |done| + 1) ==
       ReducePass(pow, ops, (done + [x, rest[0]]) + [rest[1]] + rest[2..], |done + [x, rest[0]]| + 1))
  {
    var ts := done + [x] + rest;
    assert ts[|done| + 1] == rest[0];
    if |rest| == 1 {
      assert ts == done + [x, rest[0]];
    } else {
      assert ts == (done + [x, rest[0]]) + [rest[1]] + rest[2..];
    }
  }

  /** The index-rewinding loop computes the reference: from index |done| + 1 on, it is the
      walk over the operand at |done| and what follows it. */
  lemma {:induction false} ReducePassIsChainFold(pow: Pow, ops: set<char>, done: seq<Token>, x: Token, rest: seq<Token>)
    requires ops <= Operators
    ensures ReducePass(pow, ops, done + [x] + rest, |done| + 1) == After(done, ChainFold(pow, ops, x, rest))
    decreases |rest|, 1
  {
    if rest == [] {
      assert done + [x] + rest == done + [x];
    } else if IsOperatorIn(rest[0], ops) {
      ChainFoldAtOperator(pow, ops, done, x, rest);
    } else {
      ChainFoldAtOther(pow, ops, done, x, rest);
    }
  }

  /** The step of that proof at an operator of the pass's set. */
  lemma {:induction false} ChainFoldAtOperator(pow: Pow, ops: set<char>, done: seq<Token>, x: Token, rest: seq<Token>)
    requires ops <= Operators && rest != [] && IsOperatorIn(rest[0], ops)
    ensures ReducePass(pow, ops, done + [x] + rest, |done| + 1) == After(done, ChainFold(pow, ops, x, rest))
    decreases |rest|, 0
  {
    ReduceAtOperator(pow, ops, done, x, rest);
    var r := Apply(pow, rest[0].text[0], NumberOf(x), NumberAt(rest, 1));
    if r.Ok? {
      ReducePassIsChainFold(pow, ops, done, Computed(r.value), if |rest| >= 2 then rest[2..] else []);
    }
  }

  /** The step of that proof at any other entry. */
  lemma {:induction false} ChainFoldAtOther(pow: Pow, ops: set<char>, done: seq<Token>, x: Token, rest: seq<Token>)
    requires ops <= Operators && rest != [] && !IsOperatorIn(rest[0], ops)
    ensures ReducePass(pow, ops, done + [x] + rest, |done| + 1) == After(done, ChainFold(pow, ops, x, rest))
    decreases |rest|, 0
  {
    ReduceAtOther(pow, ops, done, x, rest);
    if |rest| >= 2 {
      var done' := done + [x, rest[0]];
      ReducePassIsChainFold(pow, ops, done', rest[1], rest[2..]);
      var tail := ChainFold(pow, ops, rest[1], rest[2..]);
      if tail.Ok? {
        assert done' + tail.value == done + ([x, rest[0]] + tail.value);
      }
    }
  }

  /** A whole pass is the reference walk over the list. */
  lemma ReducePassFromStart(pow: Pow, ops: set<char>, items: seq<Token>)
    requires ops <= Operators && items != []
    ensures ReducePass(pow, ops, items, 1) == ChainFold(pow, ops, items[0], items[1..])
  {
    ReducePassIsChainFold(pow, ops, [], items[0], items[1..]);
    assert [] + [items[0]] + items[1..] == items;
    match ChainFold(pow, ops, items[0], items[1..]) {
      case Ok(ts) => assert [] + ts == ts;
      case Err(_) =>
    }
  }
}
