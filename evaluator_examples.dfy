/** `evaluateExpression` on particular inputs, each worked through the stages of
    `Evaluator.Evaluate`: the precedence of the operators, parenthesised groups, the error
    cases, and the places where the printed result of a group is read back by the
    enclosing level. */
module EvaluatorExamples {
  import opened JsNumbers
  import opened ExpressionText
  import opened Evaluator
  import opened EvaluatorFacts

  // ---------------------------------------------------------------------------------
  // Stages

  lemma {:induction false} NoWhiteSpace(s: string)
    requires forall i :: 0 <= i < |s| ==> !IsWhiteSpace(s[i])
    ensures StripWhiteSpace(s) == s
  {
    if s != [] {
      NoWhiteSpace(s[1..]);
      assert [s[0]] + s[1..] == s;
    }
  }

  /** One token per character. */
  function Singles(s: string): (ts: seq<string>)
    ensures |ts| == |s| && forall i :: 0 <= i < |s| ==> ts[i] == [s[i]]
  {
    seq(|s|, i requires 0 <= i < |s| => [s[i]])
  }

  /** Where every number is a single digit, each character is a token of its own. */
  lemma {:induction false} TokenizeSingles(s: string)
    requires forall i :: 0 <= i < |s| - 1 ==> IsSeparator(s[i]) || IsSeparator(s[i + 1])
    ensures Tokenize(s) == Singles(s)
    decreases |s|
  {
    if s != [] {
      TokenizeSingles(s[1..]);
      if !IsSeparator(s[0]) {
        assert s[1..] == [] || IsSeparator(s[1..][0]);
        assert RunLength(s[1..]) == 0;
      }
      assert s[..1] == [s[0]];
      assert Singles(s) == [[s[0]]] + Singles(s[1..]);
    }
  }

  lemma SliceOfThree(ts: seq<string>, i: nat)
    requires i + 3 <= |ts|
    ensures ts[i..i + 3] == [ts[i], ts[i + 1], ts[i + 2]]
  {
  }

  lemma ParenFreeBalanced(c: string)
    requires ParenFree(c)
    ensures NeverNegative(c) && Depth(c) == 0
  {
    NeverNegativeIff(c);
    forall k | 0 <= k <= |c|
      ensures Depth(c[..k]) >= 0
    {
      assert forall x :: x in c[..k] ==> x in c;
      DepthOfParenFree(c[..k]);
    }
    DepthOfParenFree(c);
  }

  lemma DigitNumber(d: char)
    requires IsDigit(d)
    ensures ParseFloat([d]) == Finite(DigitValue(d) as real)
  {
    assert DigitRun([d]) == 1;
    assert [d][..1] == [d];
    assert DigitsValue([d]) == DigitValue(d) by {
      assert [d][..0] == [];
    }
  }

  lemma WholeNumber(v: real)
    requires v.Floor as real == v
    ensures Round3(v) == v
  {
    assert (v * 1000.0).Floor == v.Floor * 1000;
    RoundingIsUnique(v, v);
  }

  /** Characters the expression may hold, and no white space among them. */
  lemma CheckedText(c: string)
    requires forall i :: 0 <= i < |c| ==> IsPermitted(c[i]) && !IsWhiteSpace(c[i])
    ensures StripWhiteSpace(c) == c && AllPermitted(c)
  {
    NoWhiteSpace(c);
    AllPermittedIff(c);
  }

  /** Text of permitted characters without white space, where every number is a single
      digit, passes the character check and is tokenised character by character. */
  lemma SingleCharText(c: string, ts: seq<string>)
    requires forall i :: 0 <= i < |c| ==> IsPermitted(c[i]) && !IsWhiteSpace(c[i])
    requires forall i :: 0 <= i < |c| - 1 ==> IsSeparator(c[i]) || IsSeparator(c[i + 1])
    requires ts == Singles(c)
    ensures StripWhiteSpace(c) == c && AllPermitted(c) && Tokenize(c) == ts
  {
    CheckedText(c);
    TokenizeSingles(c);
  }

  lemma DepthOfOpen()
    ensures Depth("(") == 1 && Depth(")") == -1
  {
    assert "("[..0] == [] && ")"[..0] == [];
  }

  lemma PrefixParenFree(x: string, k: nat)
    requires ParenFree(x) && k <= |x|
    ensures Depth(x[..k]) == 0
  {
    assert forall c :: c in x[..k] ==> c in x;
    DepthOfParenFree(x[..k]);
  }

  /** A balanced text in one pair of parentheses, between texts without any, is balanced. */
  lemma GroupBalanced(x: string, y: string, u: string)
    requires ParenFree(x) && ParenFree(u) && NeverNegative(y) && Depth(y) == 0
    ensures NeverNegative(x + "(" + y + ")" + u) && Depth(x + "(" + y + ")" + u) == 0
  {
    var s := x + "(" + y + ")" + u;
    NeverNegativeIff(y);
    NeverNegativeIff(s);
    DepthOfOpen();
    DepthOfParenFree(x);
    forall k | 0 <= k <= |s|
      ensures Depth(s[..k]) >= 0
    {
      if k <= |x| {
        assert s[..k] == x[..k];
        PrefixParenFree(x, k);
      } else if k <= |x| + 1 + |y| {
        var j := k - |x| - 1;
        assert s[..k] == x + "(" + y[..j];
        DepthAppend(x + "(", y[..j]);
        DepthAppend(x, "(");
      } else {
        var j := k - |x| - |y| - 2;
        assert s[..k] == x + "(" + y + ")" + u[..j];
        ClosedGroupDepth(x, y, u[..j]);
        PrefixParenFree(u, j);
      }
    }
    ClosedGroupDepth(x, y, u);
    DepthOfParenFree(u);
  }

  lemma ClosedGroupDepth(x: string, y: string, v: string)
    requires ParenFree(x) && Depth(y) == 0
    ensures Depth(x + "(" + y + ")" + v) == Depth(v)
  {
    DepthOfOpen();
    DepthOfParenFree(x);
    DepthAppend(x + "(" + y + ")", v);
    DepthAppend(x + "(" + y, ")");
    DepthAppend(x + "(", y);
    DepthAppend(x, "(");
  }

  /** One round of the parenthesis loop: the last "(" is at `open`, the first ")" after it
      at `close`, and the group is replaced by the printed result of the text inside. */
  lemma GroupStep(pow: Pow, ts: seq<string>, open: int, close: int, inner: string, shown: string)
    requires ParenTokens(ts)
    requires 0 <= open < close < |ts| && ts[open] == "(" && ts[close] == ")"
    requires forall j :: open < j < |ts| ==> ts[j] != "("
    requires forall j :: open < j < close ==> ts[j] != ")"
    requires Join(ts[open + 1..close]) == inner && Display(Evaluate(pow, inner)) == shown
    ensures ParenTokens(ts[..open] + [shown] + ts[close + 1..])
    ensures ResolveParens(pow, ts) == ResolveParens(pow, ts[..open] + [shown] + ts[close + 1..])
  {
    GroupUnfold(pow, ts, open, close);
  }

  /** `ts` holds exactly one group, from `open` to `close`, with the text `inner` inside;
      `rs` is `ts` with `shown` in place of that group, and has no group left. */
  predicate OneGroup(ts: seq<string>, open: int, close: int, inner: string, shown: string, rs: seq<string>)
  {
    && ParenTokens(ts)
    && 0 <= open < close < |ts| && ts[open] == "(" && ts[close] == ")"
    && (forall j :: open < j < |ts| ==> ts[j] != "(")
    && (forall j :: open < j < close ==> ts[j] != ")")
    && Join(ts[open + 1..close]) == inner
    && rs == ts[..open] + [shown] + ts[close + 1..] && "(" !in rs
  }

  /** Such a list resolves to `rs` when the group's evaluation prints as `shown`. */
  lemma OnlyGroup(pow: Pow, ts: seq<string>, open: int, close: int, inner: string, shown: string,
                  rs: seq<string>)
    requires OneGroup(ts, open, close, inner, shown, rs)
    requires Display(Evaluate(pow, inner)) == shown
    ensures ParenTokens(ts) && ResolveParens(pow, ts) == Ok(rs)
  {
    GroupStep(pow, ts, open, close, inner, shown);
    NoGroups(pow, rs);
  }

  lemma GroupUnfold(pow: Pow, ts: seq<string>, open: int, close: int)
    requires ParenTokens(ts)
    requires 0 <= open < close < |ts| && ts[open] == "(" && ts[close] == ")"
    requires forall j :: open < j < |ts| ==> ts[j] != "("
    requires forall j :: open < j < close ==> ts[j] != ")"
    ensures ParenTokens(ts[..open] + [Display(Evaluate(pow, Join(ts[open + 1..close])))] + ts[close + 1..])
    ensures ResolveParens(pow, ts) ==
      ResolveParens(pow, ts[..open] + [Display(Evaluate(pow, Join(ts[open + 1..close])))] + ts[close + 1..])
  {
    GroupBounds(ts, open, close);
    assert ResolveInnermost(pow, ts, open, close)
      == ts[..open] + [Display(Evaluate(pow, Join(ts[open + 1..close])))] + ts[close + 1..];
  }

  /** The group the parenthesis stage picks: the last "(" and the first ")" after it. */
  lemma GroupBounds(ts: seq<string>, open: int, close: int)
    requires 0 <= open < close < |ts| && ts[open] == "(" && ts[close] == ")"
    requires forall j :: open < j < |ts| ==> ts[j] != "("
    requires forall j :: open < j < close ==> ts[j] != ")"
    ensures "(" in ts && LastIndexOf(ts, "(") == open && IndexOf(ts, ")", open) == close
  {
    assert LastIndexOf(ts, "(") == open;
    assert IndexOf(ts, ")", open) == close;
  }

  lemma DisplayDigit(n: nat)
    requires n < 10
    ensures Display(Value(n as real)) == [DigitChar(n)]
  {
    WholeThousandths(n);
    assert NatText(n) == [DigitChar(n)];
    assert DecimalText(n * 1000) == NatText(n) + FractionText(0);
  }

  lemma WholeThousandths(n: nat)
    ensures ((n as real) * 1000.0).Floor == n * 1000
  {
    assert (n as real) * 1000.0 == (n * 1000) as real;
  }

  /** A valid expression whose groups resolve to `resolved` and whose arithmetic gives the
      finite number `v` evaluates to `v` rounded to thousandths. */
  lemma ValueByStages(pow: Pow, expression: string, c: string, resolved: seq<string>, v: real)
    requires StripWhiteSpace(expression) == c && c != [] && AllPermitted(c)
    requires NeverNegative(c) && Depth(c) == 0
    requires ParenTokens(Tokenize(c)) && ResolveParens(pow, Tokenize(c)) == Ok(resolved)
    requires OperatorSlotsAreText(AsTokens(resolved))
    requires Arithmetic(pow, AsTokens(resolved)) == Ok(Finite(v))
    ensures Evaluate(pow, expression) == Value(Round3(v))
  {
  }

  /** The same when one of the later stages throws. */
  lemma FailureByStages(pow: Pow, expression: string, c: string, resolved: seq<string>, e: EvalError)
    requires StripWhiteSpace(expression) == c && c != [] && AllPermitted(c)
    requires NeverNegative(c) && Depth(c) == 0
    requires ParenTokens(Tokenize(c)) && ResolveParens(pow, Tokenize(c)) == Ok(resolved)
    requires OperatorSlotsAreText(AsTokens(resolved))
    requires Arithmetic(pow, AsTokens(resolved)) == Err(e)
    ensures Evaluate(pow, expression) == Failure(e)
  {
  }

  /** Tokens with no group are left as they are. */
  lemma NoGroups(pow: Pow, ts: seq<string>)
    requires ParenTokens(ts) && "(" !in ts
    ensures ResolveParens(pow, ts) == Ok(ts)
  {
  }

  // ---------------------------------------------------------------------------------
  // Examples

  /** "2+3" is 5. */
  lemma TwoPlusThree(pow: Pow)
    ensures Evaluate(pow, "2+3") == Value(5.0)
  {
    var c := "2+3";
    var ts := ["2", "+", "3"];
    PlainTokens(pow, c, ts);
    TwoPlusThreeArithmetic(pow);
    WholeNumber(5.0);
    ValueByStages(pow, c, c, ts, 5.0);
  }

  /** A single-digit expression without white space or groups passes the checks, is
      tokenised character by character and is left as it is by the parenthesis stage. */
  lemma PlainTokens(pow: Pow, c: string, ts: seq<string>)
    requires c != [] && ParenFree(c) && ts == Singles(c)
    requires forall i :: 0 <= i < |c| ==> IsPermitted(c[i]) && !IsWhiteSpace(c[i])
    requires forall i :: 0 <= i < |c| - 1 ==> IsSeparator(c[i]) || IsSeparator(c[i + 1])
    ensures StripWhiteSpace(c) == c && AllPermitted(c) && NeverNegative(c) && Depth(c) == 0
    ensures Tokenize(c) == ts && ParenTokens(ts) && ResolveParens(pow, ts) == Ok(ts)
    ensures OperatorSlotsAreText(AsTokens(ts))
  {
    PlainText(c);
    TokenizeSingles(c);
    PlainResolve(pow, c, ts);
  }

  lemma PlainText(c: string)
    requires ParenFree(c)
    requires forall i :: 0 <= i < |c| ==> IsPermitted(c[i]) && !IsWhiteSpace(c[i])
    ensures StripWhiteSpace(c) == c && AllPermitted(c) && NeverNegative(c) && Depth(c) == 0
  {
    NoWhiteSpace(c);
    AllPermittedIff(c);
    ParenFreeBalanced(c);
  }

  lemma PlainResolve(pow: Pow, c: string, ts: seq<string>)
    requires ParenFree(c) && ts == Singles(c)
    ensures ParenTokens(ts) && ResolveParens(pow, ts) == Ok(ts)
    ensures OperatorSlotsAreText(AsTokens(ts))
  {
    assert forall t :: t in ts ==> ParenFree(t);
    NoGroups(pow, ts);
  }

  lemma TwoPlusThreeArithmetic(pow: Pow)
    ensures Arithmetic(pow, AsTokens(["2", "+", "3"])) == Ok(Finite(5.0))
  {
    DigitNumber('2');
    DigitNumber('3');
    var items := AsTokens(["2", "+", "3"]);
    assert items == [Text("2"), Text("+"), Text("3")];
    assert ReducePass(pow, {'^'}, items, 1) == Ok(items);
    assert ReducePass(pow, {'*', '/'}, items, 1) == Ok(items);
    assert Reduce(pow, items) == Ok(items);
    assert NumberAt(items, 0) == Finite(2.0) && NumberAt(items, 2) == Finite(3.0);
    assert AddSubFold(pow, items, 3, Finite(5.0)) == Ok(Finite(5.0));
    assert AddSubFold(pow, items, 1, Finite(2.0)) == Ok(Finite(5.0));
  }

  /** "2+3*4" is 14: multiplication binds tighter than addition. */
  lemma ProductBeforeSum(pow: Pow)
    ensures Evaluate(pow, "2+3*4") == Value(14.0)
  {
    var c := "2+3*4";
    var ts := ["2", "+", "3", "*", "4"];
    PlainTokens(pow, c, ts);
    ProductBeforeSumArithmetic(pow);
    WholeNumber(14.0);
    ValueByStages(pow, c, c, ts, 14.0);
  }

  lemma ProductBeforeSumArithmetic(pow: Pow)
    ensures Arithmetic(pow, AsTokens(["2", "+", "3", "*", "4"])) == Ok(Finite(14.0))
  {
    DigitNumber('2');
    DigitNumber('3');
    DigitNumber('4');
    var items := AsTokens(["2", "+", "3", "*", "4"]);
    assert items == [Text("2"), Text("+"), Text("3"), Text("*"), Text("4")];
    assert ReducePass(pow, {'^'}, items, 1) == Ok(items);
    var m := [Text("2"), Text("+"), Computed(Finite(12.0))];
    assert NumberAt(items, 2) == Finite(3.0) && NumberAt(items, 4) == Finite(4.0);
    assert Apply(pow, '*', Finite(3.0), Finite(4.0)) == Ok(Finite(12.0));
    assert Splice(items, 2, 3, Computed(Finite(12.0))) == m;
    assert ReducePass(pow, {'*', '/'}, m, 3) == Ok(m);
    assert ReducePass(pow, {'*', '/'}, items, 3) == Ok(m);
    assert ReducePass(pow, {'*', '/'}, items, 1) == Ok(m);
    assert Reduce(pow, items) == Ok(m);
    assert AddSubFold(pow, m, 3, Finite(14.0)) == Ok(Finite(14.0));
    assert AddSubFold(pow, m, 1, Finite(2.0)) == Ok(Finite(14.0));
  }

  /** "2^3^2" is (2^3)^2 = 64, not 2^(3^2) = 512: `^` groups to the left. */
  lemma PowerGroupsLeft(pow: Pow)
    requires pow(Finite(2.0), Finite(3.0)) == Finite(8.0)
    requires pow(Finite(8.0), Finite(2.0)) == Finite(64.0)
    ensures Evaluate(pow, "2^3^2") == Value(64.0)
  {
    var c := "2^3^2";
    var ts := ["2", "^", "3", "^", "2"];
    PlainTokens(pow, c, ts);
    PowerGroupsLeftArithmetic(pow);
    WholeNumber(64.0);
    ValueByStages(pow, c, c, ts, 64.0);
  }

  lemma PowerGroupsLeftArithmetic(pow: Pow)
    requires pow(Finite(2.0), Finite(3.0)) == Finite(8.0)
    requires pow(Finite(8.0), Finite(2.0)) == Finite(64.0)
    ensures Arithmetic(pow, AsTokens(["2", "^", "3", "^", "2"])) == Ok(Finite(64.0))
  {
    DigitNumber('2');
    DigitNumber('3');
    var items := AsTokens(["2", "^", "3", "^", "2"]);
    assert items == [Text("2"), Text("^"), Text("3"), Text("^"), Text("2")];
    var m := [Computed(Finite(8.0)), Text("^"), Text("2")];
    var f := [Computed(Finite(64.0))];
    assert NumberAt(items, 0) == Finite(2.0) && NumberAt(items, 2) == Finite(3.0);
    assert Apply(pow, '^', Finite(2.0), Finite(3.0)) == Ok(Finite(8.0));
    assert Splice(items, 0, 3, Computed(Finite(8.0))) == m;
    assert NumberAt(m, 0) == Finite(8.0) && NumberAt(m, 2) == Finite(2.0);
    assert Apply(pow, '^', Finite(8.0), Finite(2.0)) == Ok(Finite(64.0));
    assert Splice(m, 0, 3, Computed(Finite(64.0))) == f;
    assert ReducePass(pow, {'^'}, f, 1) == Ok(f);
    assert ReducePass(pow, {'^'}, m, 1) == Ok(f);
    assert ReducePass(pow, {'^'}, items, 1) == Ok(f);
    assert ReducePass(pow, {'*', '/'}, f, 1) == Ok(f);
    assert Reduce(pow, items) == Ok(f);
    assert AddSubFold(pow, f, 1, Finite(64.0)) == Ok(Finite(64.0));
  }

  /** "5/0" fails with "Division by zero". */
  lemma DivideByZero(pow: Pow)
    ensures Evaluate(pow, "5/0") == Failure(DivisionByZero)
  {
    var c := "5/0";
    var ts := ["5", "/", "0"];
    PlainTokens(pow, c, ts);
    DivideByZeroArithmetic(pow);
    FailureByStages(pow, c, c, ts, DivisionByZero);
  }

  lemma DivideByZeroArithmetic(pow: Pow)
    ensures Arithmetic(pow, AsTokens(["5", "/", "0"])) == Err(DivisionByZero)
  {
    DigitNumber('5');
    DigitNumber('0');
    var items := AsTokens(["5", "/", "0"]);
    assert items == [Text("5"), Text("/"), Text("0")];
    assert ReducePass(pow, {'^'}, items, 1) == Ok(items);
    assert NumberAt(items, 0) == Finite(5.0) && NumberAt(items, 2) == Finite(0.0);
    assert ReducePass(pow, {'*', '/'}, items, 1) == Err(DivisionByZero);
  }

  /** "-1" fails with "Expression must start with a number": a sign is never part of a
      number the user types. */
  lemma LeadingMinus(pow: Pow)
    ensures Evaluate(pow, "-1") == Failure(MissingLeadingNumber)
  {
    var c := "-1";
    var ts := ["-", "1"];
    PlainTokens(pow, c, ts);
    LeadingMinusArithmetic(pow);
    FailureByStages(pow, c, c, ts, MissingLeadingNumber);
  }

  lemma LeadingMinusArithmetic(pow: Pow)
    ensures Arithmetic(pow, AsTokens(["-", "1"])) == Err(MissingLeadingNumber)
  {
    var items := AsTokens(["-", "1"]);
    assert items == [Text("-"), Text("1")];
    assert ReducePass(pow, {'^'}, items, 1) == Ok(items);
    assert ReducePass(pow, {'*', '/'}, items, 1) == Ok(items);
    assert ParseFloat("-") == NaN;
  }

  /** "(2+3)*4" is 20: the group is evaluated first and its printed value "5" spliced in. */
  lemma GroupFirst(pow: Pow)
    ensures Evaluate(pow, "(2+3)*4") == Value(20.0)
  {
    GroupFirstAt(pow, "(2+3)*4", ["(", "2", "+", "3", ")", "*", "4"], ["5", "*", "4"]);
  }

  lemma GroupFirstAt(pow: Pow, c: string, ts: seq<string>, rs: seq<string>)
    requires c == "(2+3)*4" && ts == ["(", "2", "+", "3", ")", "*", "4"] && rs == ["5", "*", "4"]
    ensures Evaluate(pow, c) == Value(20.0)
  {
    GroupFirstText(c, ts);
    GroupFirstResolve(pow, ts, rs);
    GroupFirstArithmetic(pow, rs);
    WholeNumber(20.0);
    ValueByStages(pow, c, c, rs, 20.0);
  }

  lemma GroupFirstText(c: string, ts: seq<string>)
    requires c == "(2+3)*4" && ts == ["(", "2", "+", "3", ")", "*", "4"]
    ensures StripWhiteSpace(c) == c && AllPermitted(c)
    ensures NeverNegative(c) && Depth(c) == 0
    ensures Tokenize(c) == ts
  {
    SingleCharText(c, ts);
    GroupFirstBalanced(c);
  }

  lemma GroupFirstBalanced(c: string)
    requires c == "(2+3)*4"
    ensures NeverNegative(c) && Depth(c) == 0
  {
    ParenFreeBalanced("2+3");
    GroupBalanced("", "2+3", "*4");
    assert "" + "(" + "2+3" + ")" + "*4" == "(2+3)*4";
  }

  lemma SumShown(pow: Pow)
    ensures Display(Evaluate(pow, "2+3")) == "5"
  {
    TwoPlusThree(pow);
    DisplayDigit(5);
  }

  lemma GroupFirstShape(ts: seq<string>, rs: seq<string>)
    requires ts == ["(", "2", "+", "3", ")", "*", "4"]
    requires rs == ["5", "*", "4"]
    ensures OneGroup(ts, 0, 4, "2+3", "5", rs)
  {
    SliceOfThree(ts, 1);
    assert ts[1..4] == ["2", "+", "3"];
    assert Join(["2", "+", "3"]) == "2+3";
  }

  lemma GroupFirstResolve(pow: Pow, ts: seq<string>, rs: seq<string>)
    requires ts == ["(", "2", "+", "3", ")", "*", "4"] && rs == ["5", "*", "4"]
    ensures ParenTokens(ts) && ResolveParens(pow, ts) == Ok(rs)
  {
    GroupFirstShape(ts, rs);
    SumShown(pow);
    OnlyGroup(pow, ts, 0, 4, "2+3", "5", rs);
  }

  lemma GroupFirstArithmetic(pow: Pow, rs: seq<string>)
    requires rs == ["5", "*", "4"]
    ensures OperatorSlotsAreText(AsTokens(rs))
    ensures Arithmetic(pow, AsTokens(rs)) == Ok(Finite(20.0))
  {
    DigitNumber('5');
    DigitNumber('4');
    var items := AsTokens(rs);
    assert items == [Text("5"), Text("*"), Text("4")];
    var f := [Computed(Finite(20.0))];
    assert ReducePass(pow, {'^'}, items, 1) == Ok(items);
    assert NumberAt(items, 0) == Finite(5.0) && NumberAt(items, 2) == Finite(4.0);
    assert Splice(items, 0, 3, Computed(Finite(20.0))) == f;
    assert ReducePass(pow, {'*', '/'}, f, 1) == Ok(f);
    assert ReducePass(pow, {'*', '/'}, items, 1) == Ok(f);
    assert Reduce(pow, items) == Ok(f);
    assert AddSubFold(pow, f, 1, Finite(20.0)) == Ok(Finite(20.0));
  }

  /** "1-4" is -3. */
  lemma OneMinusFour(pow: Pow)
    ensures Evaluate(pow, "1-4") == Value(-3.0)
  {
    var c := "1-4";
    var ts := ["1", "-", "4"];
    PlainTokens(pow, c, ts);
    OneMinusFourArithmetic(pow);
    WholeNumber(-3.0);
    ValueByStages(pow, c, c, ts, -3.0);
  }

  lemma OneMinusFourArithmetic(pow: Pow)
    ensures Arithmetic(pow, AsTokens(["1", "-", "4"])) == Ok(Finite(-3.0))
  {
    var items := AsTokens(["1", "-", "4"]);
    assert items == [Text("1"), Text("-"), Text("4")];
    OneMinusFourReduce(pow, items);
    OneMinusFourFold(pow, items);
  }

  lemma OneMinusFourReduce(pow: Pow, items: seq<Token>)
    requires items == [Text("1"), Text("-"), Text("4")]
    ensures OperatorSlotsAreText(items) && Reduce(pow, items) == Ok(items)
  {
    assert ReducePass(pow, {'^'}, items, 1) == Ok(items);
    assert ReducePass(pow, {'*', '/'}, items, 1) == Ok(items);
  }

  lemma OneMinusFourFold(pow: Pow, items: seq<Token>)
    requires items == [Text("1"), Text("-"), Text("4")]
    ensures OperatorSlotsAreText(items) && NumberAt(items, 0) == Finite(1.0)
    ensures AddSubFold(pow, items, 1, Finite(1.0)) == Ok(Finite(-3.0))
  {
    DigitNumber('1');
    DigitNumber('4');
    assert NumberAt(items, 0) == Finite(1.0) && NumberAt(items, 2) == Finite(4.0);
    assert Apply(pow, '-', Finite(1.0), Finite(4.0)) == Ok(Finite(-3.0));
    assert AddSubFold(pow, items, 3, Finite(-3.0)) == Ok(Finite(-3.0));
  }

  /** The value -3 prints as "-3", which parses back to -3. */
  lemma MinusThreeText()
    ensures Display(Value(-3.0)) == "-3"
    ensures ParseFloat("-3") == Finite(-3.0)
  {
    assert (-3.0 * 1000.0).Floor == -3000;
    assert NatText(3) == "3";
    assert DecimalText(-3000) == "-3";
    DecimalTextRoundTrip(-3000);
  }

  lemma MinusThreeShown(pow: Pow)
    ensures Display(Evaluate(pow, "1-4")) == "-3"
  {
    OneMinusFour(pow);
    MinusThreeText();
  }

  /** "(1-4)*2" is -6: the group's result "-3" is read back as one negative number. */
  lemma NegativeGroup(pow: Pow)
    ensures Evaluate(pow, "(1-4)*2") == Value(-6.0)
  {
    NegativeGroupAt(pow, "(1-4)*2", ["(", "1", "-", "4", ")", "*", "2"], ["-3", "*", "2"]);
  }

  lemma NegativeGroupAt(pow: Pow, c: string, ts: seq<string>, rs: seq<string>)
    requires c == "(1-4)*2" && ts == ["(", "1", "-", "4", ")", "*", "2"] && rs == ["-3", "*", "2"]
    ensures Evaluate(pow, c) == Value(-6.0)
  {
    NegativeGroupText(c, ts);
    NegativeGroupResolve(pow, ts, rs);
    NegativeGroupArithmetic(pow, rs);
    WholeNumber(-6.0);
    ValueByStages(pow, c, c, rs, -6.0);
  }

  lemma NegativeGroupText(c: string, ts: seq<string>)
    requires c == "(1-4)*2" && ts == ["(", "1", "-", "4", ")", "*", "2"]
    ensures StripWhiteSpace(c) == c && AllPermitted(c)
    ensures NeverNegative(c) && Depth(c) == 0
    ensures Tokenize(c) == ts
  {
    SingleCharText(c, ts);
    NegativeGroupBalanced(c);
  }

  lemma NegativeGroupBalanced(c: string)
    requires c == "(1-4)*2"
    ensures NeverNegative(c) && Depth(c) == 0
  {
    ParenFreeBalanced("1-4");
    GroupBalanced("", "1-4", "*2");
    assert "" + "(" + "1-4" + ")" + "*2" == "(1-4)*2";
  }

  lemma NegativeGroupShape(ts: seq<string>, rs: seq<string>)
    requires ts == ["(", "1", "-", "4", ")", "*", "2"]
    requires rs == ["-3", "*", "2"]
    ensures OneGroup(ts, 0, 4, "1-4", "-3", rs)
  {
    SliceOfThree(ts, 1);
    assert ts[1..4] == ["1", "-", "4"];
    assert Join(["1", "-", "4"]) == "1-4";
  }

  lemma NegativeGroupResolve(pow: Pow, ts: seq<string>, rs: seq<string>)
    requires ts == ["(", "1", "-", "4", ")", "*", "2"] && rs == ["-3", "*", "2"]
    ensures ParenTokens(ts) && ResolveParens(pow, ts) == Ok(rs)
  {
    NegativeGroupShape(ts, rs);
    MinusThreeShown(pow);
    OnlyGroup(pow, ts, 0, 4, "1-4", "-3", rs);
  }

  lemma NegativeGroupArithmetic(pow: Pow, rs: seq<string>)
    requires rs == ["-3", "*", "2"]
    ensures OperatorSlotsAreText(AsTokens(rs))
    ensures Arithmetic(pow, AsTokens(rs)) == Ok(Finite(-6.0))
  {
    MinusThreeText();
    DigitNumber('2');
    var items := AsTokens(rs);
    assert items == [Text("-3"), Text("*"), Text("2")];
    var f := [Computed(Finite(-6.0))];
    assert ReducePass(pow, {'^'}, items, 1) == Ok(items);
    assert NumberAt(items, 0) == Finite(-3.0) && NumberAt(items, 2) == Finite(2.0);
    assert Splice(items, 0, 3, Computed(Finite(-6.0))) == f;
    assert ReducePass(pow, {'*', '/'}, f, 1) == Ok(f);
    assert ReducePass(pow, {'*', '/'}, items, 1) == Ok(f);
    assert Reduce(pow, items) == Ok(f);
    assert AddSubFold(pow, f, 1, Finite(-6.0)) == Ok(Finite(-6.0));
  }

  /** "1/3" is 0.333: every result is rounded to three decimals. */
  lemma OneThird(pow: Pow)
    ensures Evaluate(pow, "1/3") == Value(0.333)
  {
    var c := "1/3";
    var ts := ["1", "/", "3"];
    PlainTokens(pow, c, ts);
    OneThirdArithmetic(pow);
    OneThirdRounds();
    ValueByStages(pow, c, c, ts, 1.0 / 3.0);
  }

  lemma OneThirdRounds()
    ensures Round3(1.0 / 3.0) == 0.333
  {
    assert (0.333 * 1000.0).Floor == 333;
    RoundingIsUnique(1.0 / 3.0, 0.333);
  }

  lemma OneThirdArithmetic(pow: Pow)
    ensures Arithmetic(pow, AsTokens(["1", "/", "3"])) == Ok(Finite(1.0 / 3.0))
  {
    var items := AsTokens(["1", "/", "3"]);
    assert items == [Text("1"), Text("/"), Text("3")];
    var f := [Computed(Finite(1.0 / 3.0))];
    OneThirdReduce(pow, items, f);
    assert AddSubFold(pow, f, 1, Finite(1.0 / 3.0)) == Ok(Finite(1.0 / 3.0));
  }

  lemma OneThirdReduce(pow: Pow, items: seq<Token>, f: seq<Token>)
    requires items == [Text("1"), Text("/"), Text("3")]
    requires f == [Computed(Finite(1.0 / 3.0))]
    ensures OperatorSlotsAreText(items) && Reduce(pow, items) == Ok(f)
  {
    DigitNumber('1');
    DigitNumber('3');
    assert ReducePass(pow, {'^'}, items, 1) == Ok(items);
    assert NumberAt(items, 0) == Finite(1.0) && NumberAt(items, 2) == Finite(3.0);
    assert Apply(pow, '/', Finite(1.0), Finite(3.0)) == Ok(Finite(1.0 / 3.0));
    assert Splice(items, 0, 3, Computed(Finite(1.0 / 3.0))) == f;
    assert ReducePass(pow, {'*', '/'}, f, 1) == Ok(f);
  }

  /** The rounded third prints as "0.333", which parses back to 0.333. */
  lemma OneThirdText()
    ensures Display(Value(0.333)) == "0.333"
    ensures ParseFloat("0.333") == Finite(0.333)
  {
    assert (0.333 * 1000.0).Floor == 333;
    assert NatText(0) == "0";
    assert FractionText(333) == ".333";
    assert DecimalText(333) == "0.333";
    DecimalTextRoundTrip(333);
  }

  lemma OneThirdShown(pow: Pow)
    ensures Display(Evaluate(pow, "1/3")) == "0.333"
  {
    OneThird(pow);
    OneThirdText();
  }

  /** "1/3*3" is 1: within one level the exact quotient is carried to the product. */
  lemma ThirdTimesThree(pow: Pow)
    ensures Evaluate(pow, "1/3*3") == Value(1.0)
  {
    var c := "1/3*3";
    var ts := ["1", "/", "3", "*", "3"];
    PlainTokens(pow, c, ts);
    ThirdTimesThreeArithmetic(pow);
    WholeNumber(1.0);
    ValueByStages(pow, c, c, ts, 1.0);
  }

  lemma ThirdTimesThreeArithmetic(pow: Pow)
    ensures Arithmetic(pow, AsTokens(["1", "/", "3", "*", "3"])) == Ok(Finite(1.0))
  {
    var items := AsTokens(["1", "/", "3", "*", "3"]);
    assert items == [Text("1"), Text("/"), Text("3"), Text("*"), Text("3")];
    var f := [Computed(Finite(1.0))];
    ThirdTimesThreeReduce(pow, items, f);
    assert AddSubFold(pow, f, 1, Finite(1.0)) == Ok(Finite(1.0));
  }

  lemma ThirdTimesThreeReduce(pow: Pow, items: seq<Token>, f: seq<Token>)
    requires items == [Text("1"), Text("/"), Text("3"), Text("*"), Text("3")]
    requires f == [Computed(Finite(1.0))]
    ensures OperatorSlotsAreText(items) && Reduce(pow, items) == Ok(f)
  {
    DigitNumber('1');
    DigitNumber('3');
    var m := [Computed(Finite(1.0 / 3.0)), Text("*"), Text("3")];
    assert ReducePass(pow, {'^'}, items, 3) == Ok(items);
    assert ReducePass(pow, {'^'}, items, 1) == Ok(items);
    assert NumberAt(items, 0) == Finite(1.0) && NumberAt(items, 2) == Finite(3.0);
    assert Apply(pow, '/', Finite(1.0), Finite(3.0)) == Ok(Finite(1.0 / 3.0));
    assert Splice(items, 0, 3, Computed(Finite(1.0 / 3.0))) == m;
    assert NumberAt(m, 0) == Finite(1.0 / 3.0) && NumberAt(m, 2) == Finite(3.0);
    assert Apply(pow, '*', Finite(1.0 / 3.0), Finite(3.0)) == Ok(Finite(1.0));
    assert Splice(m, 0, 3, Computed(Finite(1.0))) == f;
    assert ReducePass(pow, {'*', '/'}, f, 1) == Ok(f);
    assert ReducePass(pow, {'*', '/'}, m, 1) == Ok(f);
  }

  /** "(1/3)*3" is 0.999: the group's result is rounded before the product uses it. */
  lemma RoundedGroup(pow: Pow)
    ensures Evaluate(pow, "(1/3)*3") == Value(0.999)
  {
    RoundedGroupAt(pow, "(1/3)*3", ["(", "1", "/", "3", ")", "*", "3"], ["0.333", "*", "3"]);
  }

  lemma RoundedGroupAt(pow: Pow, c: string, ts: seq<string>, rs: seq<string>)
    requires c == "(1/3)*3" && ts == ["(", "1", "/", "3", ")", "*", "3"] && rs == ["0.333", "*", "3"]
    ensures Evaluate(pow, c) == Value(0.999)
  {
    RoundedGroupText(c, ts);
    RoundedGroupResolve(pow, ts, rs);
    RoundedGroupArithmetic(pow, rs);
    ThreeDecimals(0.999, 999);
    ValueByStages(pow, c, c, rs, 0.999);
  }

  /** A number with at most three decimals is left as it is by the rounding. */
  lemma ThreeDecimals(v: real, k: int)
    requires v == k as real / 1000.0
    ensures Round3(v) == v
  {
    assert v * 1000.0 == k as real;
    assert (v * 1000.0).Floor == k;
    RoundingIsUnique(v, v);
  }

  lemma RoundedGroupText(c: string, ts: seq<string>)
    requires c == "(1/3)*3" && ts == ["(", "1", "/", "3", ")", "*", "3"]
    ensures StripWhiteSpace(c) == c && AllPermitted(c)
    ensures NeverNegative(c) && Depth(c) == 0
    ensures Tokenize(c) == ts
  {
    SingleCharText(c, ts);
    RoundedGroupBalanced(c);
  }

  lemma RoundedGroupBalanced(c: string)
    requires c == "(1/3)*3"
    ensures NeverNegative(c) && Depth(c) == 0
  {
    ParenFreeBalanced("1/3");
    GroupBalanced("", "1/3", "*3");
    assert "" + "(" + "1/3" + ")" + "*3" == "(1/3)*3";
  }

  lemma RoundedGroupShape(ts: seq<string>, rs: seq<string>)
    requires ts == ["(", "1", "/", "3", ")", "*", "3"]
    requires rs == ["0.333", "*", "3"]
    ensures OneGroup(ts, 0, 4, "1/3", "0.333", rs)
  {
    SliceOfThree(ts, 1);
    assert ts[1..4] == ["1", "/", "3"];
    assert Join(["1", "/", "3"]) == "1/3";
  }

  lemma RoundedGroupResolve(pow: Pow, ts: seq<string>, rs: seq<string>)
    requires ts == ["(", "1", "/", "3", ")", "*", "3"] && rs == ["0.333", "*", "3"]
    ensures ParenTokens(ts) && ResolveParens(pow, ts) == Ok(rs)
  {
    RoundedGroupShape(ts, rs);
    OneThirdShown(pow);
    OnlyGroup(pow, ts, 0, 4, "1/3", "0.333", rs);
  }

  lemma RoundedGroupArithmetic(pow: Pow, rs: seq<string>)
    requires rs == ["0.333", "*", "3"]
    ensures OperatorSlotsAreText(AsTokens(rs))
    ensures Arithmetic(pow, AsTokens(rs)) == Ok(Finite(0.999))
  {
    var items := AsTokens(rs);
    assert items == [Text("0.333"), Text("*"), Text("3")];
    var f := [Computed(Finite(0.999))];
    RoundedGroupReduce(pow, items, f);
    assert AddSubFold(pow, f, 1, Finite(0.999)) == Ok(Finite(0.999));
  }

  lemma RoundedGroupReduce(pow: Pow, items: seq<Token>, f: seq<Token>)
    requires items == [Text("0.333"), Text("*"), Text("3")]
    requires f == [Computed(Finite(0.999))]
    ensures OperatorSlotsAreText(items) && Reduce(pow, items) == Ok(f)
  {
    RoundedGroupNumbers(items);
    assert ReducePass(pow, {'^'}, items, 1) == Ok(items);
    assert Apply(pow, '*', Finite(0.333), Finite(3.0)) == Ok(Finite(0.999));
    assert Splice(items, 0, 3, Computed(Finite(0.999))) == f;
    assert ReducePass(pow, {'*', '/'}, f, 1) == Ok(f);
  }

  lemma RoundedGroupNumbers(items: seq<Token>)
    requires items == [Text("0.333"), Text("*"), Text("3")]
    ensures NumberAt(items, 0) == Finite(0.333) && NumberAt(items, 2) == Finite(3.0)
  {
    OneThirdText();
    DigitNumber('3');
  }

  /** Brackets that do not change the order of operations still change the answer, since
      each group's result is rounded before it is reused. */
  lemma BracketsChangeTheAnswer(pow: Pow)
    ensures Evaluate(pow, "(1/3)*3") != Evaluate(pow, "1/3*3")
  {
    RoundedGroup(pow);
    ThirdTimesThree(pow);
  }

  /** "2*(5/0)" fails with "Invalid operands for multiplication", not with "Division by
      zero": the group's error message is spliced in as text and read as NaN. */
  lemma ErrorInsideGroup(pow: Pow)
    ensures Evaluate(pow, "2*(5/0)") == Failure(InvalidOperands('*'))
  {
    ErrorInsideGroupAt(pow, "2*(5/0)", Display(Failure(DivisionByZero)));
  }

  lemma ErrorInsideGroupAt(pow: Pow, c: string, shown: string)
    requires c == "2*(5/0)" && shown == Display(Failure(DivisionByZero))
    ensures Evaluate(pow, c) == Failure(InvalidOperands('*'))
  {
    var ts := ["2", "*", "(", "5", "/", "0", ")"];
    ErrorInsideGroupText(c, ts);
    ErrorInsideGroupResolve(pow, ts, shown);
    ErrorInsideGroupArithmetic(pow, shown);
    FailureByStages(pow, c, c, ["2", "*", shown], InvalidOperands('*'));
  }

  lemma ErrorInsideGroupText(c: string, ts: seq<string>)
    requires c == "2*(5/0)" && ts == ["2", "*", "(", "5", "/", "0", ")"]
    ensures StripWhiteSpace(c) == c && AllPermitted(c)
    ensures NeverNegative(c) && Depth(c) == 0
    ensures Tokenize(c) == ts
  {
    SingleCharText(c, ts);
    ErrorInsideGroupBalanced(c);
  }

  lemma ErrorInsideGroupBalanced(c: string)
    requires c == "2*(5/0)"
    ensures NeverNegative(c) && Depth(c) == 0
  {
    ParenFreeBalanced("5/0");
    GroupBalanced("2*", "5/0", "");
    assert "2*" + "(" + "5/0" + ")" + "" == "2*(5/0)";
  }

  lemma ErrorInsideGroupShape(ts: seq<string>, shown: string, rs: seq<string>)
    requires ts == ["2", "*", "(", "5", "/", "0", ")"]
    requires shown == Display(Failure(DivisionByZero)) && rs == ["2", "*", shown]
    ensures OneGroup(ts, 2, 6, "5/0", shown, rs)
  {
    assert shown[0] == 'E';
    SliceOfThree(ts, 3);
    assert ts[3..6] == ["5", "/", "0"];
    assert Join(["5", "/", "0"]) == "5/0";
    assert ts[..2] == ["2", "*"];
  }

  lemma ErrorInsideGroupResolve(pow: Pow, ts: seq<string>, shown: string)
    requires ts == ["2", "*", "(", "5", "/", "0", ")"]
    requires shown == Display(Failure(DivisionByZero))
    ensures ParenTokens(ts) && ResolveParens(pow, ts) == Ok(["2", "*", shown])
  {
    var rs := ["2", "*", shown];
    ErrorInsideGroupShape(ts, shown, rs);
    DivideByZeroShown(pow, "5/0", shown);
    OnlyGroup(pow, ts, 2, 6, "5/0", shown, rs);
  }

  lemma DivideByZeroShown(pow: Pow, inner: string, shown: string)
    requires inner == "5/0" && shown == Display(Failure(DivisionByZero))
    ensures Display(Evaluate(pow, inner)) == shown
  {
    DivideByZero(pow);
  }

  lemma ErrorInsideGroupArithmetic(pow: Pow, shown: string)
    requires shown == Display(Failure(DivisionByZero))
    ensures OperatorSlotsAreText(AsTokens(["2", "*", shown]))
    ensures Arithmetic(pow, AsTokens(["2", "*", shown])) == Err(InvalidOperands('*'))
  {
    DigitNumber('2');
    assert shown[0] == 'E';
    var items := AsTokens(["2", "*", shown]);
    assert items == [Text("2"), Text("*"), Text(shown)];
    assert ReducePass(pow, {'^'}, items, 1) == Ok(items);
    assert NumberAt(items, 0) == Finite(2.0) && NumberAt(items, 2) == NaN;
    assert ReducePass(pow, {'*', '/'}, items, 1) == Err(InvalidOperands('*'));
  }

  /** "-3" fails like "-1": the sign is an operator with nothing before it. */
  lemma MinusThree(pow: Pow)
    ensures Evaluate(pow, "-3") == Failure(MissingLeadingNumber)
  {
    var c := "-3";
    var ts := ["-", "3"];
    PlainTokens(pow, c, ts);
    MinusThreeArithmetic(pow);
    FailureByStages(pow, c, c, ts, MissingLeadingNumber);
  }

  lemma MinusThreeArithmetic(pow: Pow)
    ensures Arithmetic(pow, AsTokens(["-", "3"])) == Err(MissingLeadingNumber)
  {
    var items := AsTokens(["-", "3"]);
    assert items == [Text("-"), Text("3")];
    assert ReducePass(pow, {'^'}, items, 1) == Ok(items);
    assert ReducePass(pow, {'*', '/'}, items, 1) == Ok(items);
    assert ParseFloat("-") == NaN;
  }

  /** "((1-4))" fails although "1-4" is -3: the inner group's "-3" is evaluated once more
      by the outer group, and on its own it starts with an operator. */
  lemma DoubledBracketsAroundNegative(pow: Pow)
    ensures Evaluate(pow, "1-4") == Value(-3.0)
    ensures Evaluate(pow, "((1-4))") == Failure(MissingLeadingNumber)
  {
    OneMinusFour(pow);
    DoubledBracketsAt(pow, "((1-4))", Display(Failure(MissingLeadingNumber)));
  }

  lemma DoubledBracketsAt(pow: Pow, c: string, shown: string)
    requires c == "((1-4))" && shown == Display(Failure(MissingLeadingNumber))
    ensures Evaluate(pow, c) == Failure(MissingLeadingNumber)
  {
    var ts := ["(", "(", "1", "-", "4", ")", ")"];
    DoubledBracketsText(c, ts);
    DoubledBracketsResolve(pow, ts, shown);
    DoubledBracketsArithmetic(pow, shown);
    FailureByStages(pow, c, c, [shown], MissingLeadingNumber);
  }

  lemma DoubledBracketsText(c: string, ts: seq<string>)
    requires c == "((1-4))" && ts == ["(", "(", "1", "-", "4", ")", ")"]
    ensures StripWhiteSpace(c) == c && AllPermitted(c)
    ensures NeverNegative(c) && Depth(c) == 0
    ensures Tokenize(c) == ts
  {
    SingleCharText(c, ts);
    DoubledBracketsBalanced(c);
  }

  lemma DoubledBracketsBalanced(c: string)
    requires c == "((1-4))"
    ensures NeverNegative(c) && Depth(c) == 0
  {
    ParenFreeBalanced("1-4");
    GroupBalanced("", "1-4", "");
    assert "" + "(" + "1-4" + ")" + "" == "(1-4)";
    GroupBalanced("", "(1-4)", "");
    assert "" + "(" + "(1-4)" + ")" + "" == "((1-4))";
  }

  lemma DoubledBracketsInnerShape(ts: seq<string>)
    requires ts == ["(", "(", "1", "-", "4", ")", ")"]
    ensures ParenTokens(ts)
    ensures forall j :: 1 < j < |ts| ==> ts[j] != "("
    ensures forall j :: 1 < j < 5 ==> ts[j] != ")"
    ensures Join(ts[2..5]) == "1-4"
    ensures ts[..1] + ["-3"] + ts[6..] == ["(", "-3", ")"]
  {
    SliceOfThree(ts, 2);
    assert ts[2..5] == ["1", "-", "4"];
    assert Join(["1", "-", "4"]) == "1-4";
  }

  lemma DoubledBracketsOuterShape(ts: seq<string>, shown: string)
    requires ts == ["(", "-3", ")"]
    ensures ParenTokens(ts)
    ensures forall j :: 0 < j < |ts| ==> ts[j] != "("
    ensures forall j :: 0 < j < 2 ==> ts[j] != ")"
    ensures Join(ts[1..2]) == "-3"
    ensures ts[..0] + [shown] + ts[3..] == [shown]
  {
    assert ts[1..2] == ["-3"];
    assert Join(["-3"]) == "-3";
  }

  lemma DoubledBracketsResolve(pow: Pow, ts: seq<string>, shown: string)
    requires ts == ["(", "(", "1", "-", "4", ")", ")"]
    requires shown == Display(Failure(MissingLeadingNumber))
    ensures ParenTokens(ts) && ResolveParens(pow, ts) == Ok([shown])
  {
    var ts2 := ["(", "-3", ")"];
    DoubledBracketsInnerStep(pow, ts, ts2);
    DoubledBracketsOuterStep(pow, ts2, shown);
  }

  lemma DoubledBracketsInnerStep(pow: Pow, ts: seq<string>, ts2: seq<string>)
    requires ts == ["(", "(", "1", "-", "4", ")", ")"] && ts2 == ["(", "-3", ")"]
    ensures ParenTokens(ts) && ParenTokens(ts2) && ResolveParens(pow, ts) == ResolveParens(pow, ts2)
  {
    DoubledBracketsInnerShape(ts);
    MinusThreeShown(pow);
    GroupStep(pow, ts, 1, 5, "1-4", "-3");
  }

  lemma DoubledBracketsOuterStep(pow: Pow, ts2: seq<string>, shown: string)
    requires ts2 == ["(", "-3", ")"] && shown == Display(Failure(MissingLeadingNumber))
    ensures ParenTokens(ts2) && ResolveParens(pow, ts2) == Ok([shown])
  {
    DoubledBracketsOuterShape(ts2, shown);
    MinusThree(pow);
    GroupStep(pow, ts2, 0, 2, "-3", shown);
    assert shown[0] == 'E';
    NoGroups(pow, [shown]);
  }

  lemma DoubledBracketsArithmetic(pow: Pow, shown: string)
    requires shown == Display(Failure(MissingLeadingNumber))
    ensures OperatorSlotsAreText(AsTokens([shown]))
    ensures Arithmetic(pow, AsTokens([shown])) == Err(MissingLeadingNumber)
  {
    assert shown[0] == 'E';
    var items := AsTokens([shown]);
    assert items == [Text(shown)];
    assert ReducePass(pow, {'^'}, items, 1) == Ok(items);
    assert ReducePass(pow, {'*', '/'}, items, 1) == Ok(items);
    assert NumberAt(items, 0) == NaN;
  }


  /** A single digit evaluates to itself and prints as itself. */
  lemma DigitAlone(pow: Pow, d: char)
    requires IsDigit(d)
    ensures Evaluate(pow, [d]) == Value(DigitValue(d) as real)
    ensures Display(Evaluate(pow, [d])) == [d]
  {
    var v := DigitValue(d);
    PlainTokens(pow, [d], [[d]]);
    DigitArithmetic(pow, d);
    WholeNumber(v as real);
    ValueByStages(pow, [d], [d], [[d]], v as real);
    DisplayDigit(v);
    assert DigitChar(v) == d;
  }

  lemma DigitArithmetic(pow: Pow, d: char)
    requires IsDigit(d)
    ensures OperatorSlotsAreText(AsTokens([[d]]))
    ensures Arithmetic(pow, AsTokens([[d]])) == Ok(Finite(DigitValue(d) as real))
  {
    DigitNumber(d);
    var items := AsTokens([[d]]);
    assert items == [Text([d])];
    assert ReducePass(pow, {'^'}, items, 1) == Ok(items);
    assert ReducePass(pow, {'*', '/'}, items, 1) == Ok(items);
    assert NumberAt(items, 0) == Finite(DigitValue(d) as real);
  }

  /** Two balanced texts side by side are balanced. */
  lemma BalancedAppend(a: string, b: string)
    requires NeverNegative(a) && Depth(a) == 0 && NeverNegative(b) && Depth(b) == 0
    ensures NeverNegative(a + b) && Depth(a + b) == 0
  {
    var s := a + b;
    NeverNegativeIff(a);
    NeverNegativeIff(b);
    NeverNegativeIff(s);
    forall k | 0 <= k <= |s|
      ensures Depth(s[..k]) >= 0
    {
      if k <= |a| {
        assert s[..k] == a[..k];
      } else {
        assert s[..k] == a + b[..k - |a|];
        DepthAppend(a, b[..k - |a|]);
      }
    }
    DepthAppend(a, b);
  }

  /** "(2)(3)" fails with "Invalid operator: 3": both groups are resolved, and the "3" left
      where an operator should stand is quoted. */
  lemma AdjacentGroups(pow: Pow)
    ensures Evaluate(pow, "(2)(3)") == Failure(InvalidOperator("3"))
  {
    AdjacentGroupsAt(pow, "(2)(3)", ["(", "2", ")", "(", "3", ")"], ["2", "3"]);
  }

  lemma AdjacentGroupsAt(pow: Pow, c: string, ts: seq<string>, rs: seq<string>)
    requires c == "(2)(3)" && ts == ["(", "2", ")", "(", "3", ")"] && rs == ["2", "3"]
    ensures Evaluate(pow, c) == Failure(InvalidOperator("3"))
  {
    AdjacentGroupsText(c, ts);
    AdjacentGroupsResolve(pow, ts, rs);
    AdjacentGroupsArithmetic(pow, rs);
    FailureByStages(pow, c, c, rs, InvalidOperator("3"));
  }

  lemma AdjacentGroupsText(c: string, ts: seq<string>)
    requires c == "(2)(3)" && ts == ["(", "2", ")", "(", "3", ")"]
    ensures StripWhiteSpace(c) == c && AllPermitted(c)
    ensures NeverNegative(c) && Depth(c) == 0
    ensures Tokenize(c) == ts
  {
    SingleCharText(c, ts);
    AdjacentGroupsBalanced(c);
  }

  lemma AdjacentGroupsBalanced(c: string)
    requires c == "(2)(3)"
    ensures NeverNegative(c) && Depth(c) == 0
  {
    ParenFreeBalanced("2");
    GroupBalanced("", "2", "");
    assert "" + "(" + "2" + ")" + "" == "(2)";
    ParenFreeBalanced("3");
    GroupBalanced("", "3", "");
    assert "" + "(" + "3" + ")" + "" == "(3)";
    BalancedAppend("(2)", "(3)");
    assert "(2)" + "(3)" == c;
  }

  lemma AdjacentGroupsResolve(pow: Pow, ts: seq<string>, rs: seq<string>)
    requires ts == ["(", "2", ")", "(", "3", ")"] && rs == ["2", "3"]
    ensures ParenTokens(ts) && ResolveParens(pow, ts) == Ok(rs)
  {
    var ts2 := ["(", "2", ")", "3"];
    AdjacentGroupsSecondStep(pow, ts, ts2);
    AdjacentGroupsFirstStep(pow, ts2, rs);
  }

  lemma AdjacentGroupsSecondShape(ts: seq<string>, ts2: seq<string>)
    requires ts == ["(", "2", ")", "(", "3", ")"] && ts2 == ["(", "2", ")", "3"]
    ensures ParenTokens(ts)
    ensures forall j :: 3 < j < |ts| ==> ts[j] != "("
    ensures forall j :: 3 < j < 5 ==> ts[j] != ")"
    ensures Join(ts[4..5]) == "3"
    ensures ts[..3] + ["3"] + ts[6..] == ts2
  {
    assert ts[4..5] == ["3"];
    assert Join(["3"]) == "3";
  }

  lemma AdjacentGroupsSecondStep(pow: Pow, ts: seq<string>, ts2: seq<string>)
    requires ts == ["(", "2", ")", "(", "3", ")"] && ts2 == ["(", "2", ")", "3"]
    ensures ParenTokens(ts) && ParenTokens(ts2) && ResolveParens(pow, ts) == ResolveParens(pow, ts2)
  {
    AdjacentGroupsSecondShape(ts, ts2);
    DigitAlone(pow, '3');
    GroupStep(pow, ts, 3, 5, "3", "3");
  }

  lemma AdjacentGroupsFirstShape(ts2: seq<string>, rs: seq<string>)
    requires ts2 == ["(", "2", ")", "3"] && rs == ["2", "3"]
    ensures OneGroup(ts2, 0, 2, "2", "2", rs)
  {
    assert ts2[1..2] == ["2"];
    assert Join(["2"]) == "2";
  }

  lemma AdjacentGroupsFirstStep(pow: Pow, ts2: seq<string>, rs: seq<string>)
    requires ts2 == ["(", "2", ")", "3"] && rs == ["2", "3"]
    ensures ParenTokens(ts2) && ResolveParens(pow, ts2) == Ok(rs)
  {
    AdjacentGroupsFirstShape(ts2, rs);
    DigitAlone(pow, '2');
    OnlyGroup(pow, ts2, 0, 2, "2", "2", rs);
  }

  lemma AdjacentGroupsArithmetic(pow: Pow, rs: seq<string>)
    requires rs == ["2", "3"]
    ensures OperatorSlotsAreText(AsTokens(rs))
    ensures Arithmetic(pow, AsTokens(rs)) == Err(InvalidOperator("3"))
  {
    DigitNumber('2');
    var items := AsTokens(rs);
    assert items == [Text("2"), Text("3")];
    assert ReducePass(pow, {'^'}, items, 1) == Ok(items);
    assert ReducePass(pow, {'*', '/'}, items, 1) == Ok(items);
    assert NumberAt(items, 0) == Finite(2.0);
    assert !IsOperatorIn(items[1], Operators);
  }
}
