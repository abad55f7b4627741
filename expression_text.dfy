/** The character-level steps of `evaluateExpression` (static/script.js:150-270):
    white-space removal, the permitted character class, the split into tokens and the
    parenthesis depth counter. */
module ExpressionText {

  /** JavaScript's `\s`: the characters `replace(/\s+/g, '')` removes. */
  predicate IsWhiteSpace(c: char)
  {
    c == ' ' || c == '\t' || c == '\n' || c == '\r' || c == '\U{000B}' || c == '\U{000C}' ||
    c == '\U{00A0}' || c == '\U{1680}' || ('\U{2000}' <= c <= '\U{200A}') ||
    c == '\U{2028}' || c == '\U{2029}' || c == '\U{202F}' || c == '\U{205F}' ||
    c == '\U{3000}' || c == '\U{FEFF}'
  }

  /** `expression.replace(/\s+/g, '')`. */
  function StripWhiteSpace(s: string): (r: string)
    ensures |r| <= |s|
    ensures forall c :: c in r <==> c in s && !IsWhiteSpace(c)
  {
    if s == [] then []
    else if IsWhiteSpace(s[0]) then StripWhiteSpace(s[1..])
    else [s[0]] + StripWhiteSpace(s[1..])
  }

  /** A single character is dropped when it is white space and kept otherwise. */
  lemma StripOne(c: char)
    ensures StripWhiteSpace([c]) == if IsWhiteSpace(c) then [] else [c]
  {
    assert [c][1..] == [];
  }

  /** White space is removed piece by piece: together with `StripOne` this makes
      `StripWhiteSpace` the in-order filter that keeps the characters that are not white
      space. */
  lemma {:induction false} StripAppend(a: string, b: string)
    ensures StripWhiteSpace(a + b) == StripWhiteSpace(a) + StripWhiteSpace(b)
    decreases |a|
  {
    if a != [] {
      assert (a + b)[0] == a[0] && (a + b)[1..] == a[1..] + b;
      StripAppend(a[1..], b);
    } else {
      assert a + b == b;
    }
  }

  /** The characters of `/^[0-9+\-*\/^().]+$/`. */
  predicate IsPermitted(c: char)
  {
    ('0' <= c <= '9') || c in "+-*/^()."
  }

  predicate AllPermitted(s: string)
  {
    s == [] || (IsPermitted(s[0]) && AllPermitted(s[1..]))
  }

  lemma {:induction false} AllPermittedIff(s: string)
    ensures AllPermitted(s) <==> forall i :: 0 <= i < |s| ==> IsPermitted(s[i])
  {
    if s != [] {
      AllPermittedIff(s[1..]);
      assert forall i :: 1 <= i < |s| ==> s[i] == s[1..][i - 1];
    }
  }

  /** The characters of the split pattern `/([+\-*\/^()])/`. */
  predicate IsSeparator(c: char)
  {
    c in "+-*/^()"
  }

  predicate SeparatorFree(s: string)
  {
    forall i :: 0 <= i < |s| ==> !IsSeparator(s[i])
  }

  /** A token of the split: one separator character, or a nonempty run without separators. */
  predicate IsSeparatorToken(t: string)
  {
    |t| == 1 && IsSeparator(t[0])
  }

  predicate IsRunToken(t: string)
  {
    |t| > 0 && SeparatorFree(t)
  }

  /** Length of the separator-free run at the start of `s`. */
  function RunLength(s: string): (n: nat)
    ensures n <= |s|
    ensures SeparatorFree(s[..n])
    ensures n < |s| ==> IsSeparator(s[n])
  {
    if s == [] || IsSeparator(s[0]) then 0
    else
      var n := 1 + RunLength(s[1..]);
      assert forall i :: 1 <= i < n ==> s[..n][i] == s[1..][..n - 1][i - 1];
      n
  }

  /** `expression.split(/([+\-*\/^()])/).filter(token => token.length > 0)`: the separators
      kept as tokens of their own, the maximal runs between them as the other tokens. */
  function Tokenize(s: string): (ts: seq<string>)
    ensures forall t :: t in ts ==> IsSeparatorToken(t) || IsRunToken(t)
    ensures s == [] <==> ts == []
    ensures ts != [] ==> ts[0] != [] && ts[0][0] == s[0]
    ensures forall j :: 0 <= j < |ts| - 1 ==> !(IsRunToken(ts[j]) && IsRunToken(ts[j + 1]))
    decreases |s|
  {
    if s == [] then []
    else if IsSeparator(s[0]) then [s[..1]] + Tokenize(s[1..])
    else
      var n := RunLength(s);
      [s[..n]] + Tokenize(s[n..])
  }

  /** `tokens.join('')`. */
  function Join(ts: seq<string>): string
  {
    if ts == [] then "" else ts[0] + Join(ts[1..])
  }

  lemma {:induction false} JoinAppend(a: seq<string>, b: seq<string>)
    ensures Join(a + b) == Join(a) + Join(b)
  {
    if a != [] {
      assert (a + b)[1..] == a[1..] + b;
      JoinAppend(a[1..], b);
    } else {
      assert a + b == b;
    }
  }

  /** Concatenating the tokens gives back the text they were split from. */
  lemma {:induction false} TokenizeRoundTrip(s: string)
    ensures Join(Tokenize(s)) == s
    decreases |s|
  {
    if s != [] {
      var n := if IsSeparator(s[0]) then 1 else RunLength(s);
      TokenizeFirst(s, n);
      TokenizeRoundTrip(s[n..]);
      JoinCons(s[..n], Tokenize(s[n..]));
      assert s == s[..n] + s[n..];
    }
  }

  /** The first token `Tokenize` cuts off: one separator, or a whole run. */
  lemma TokenizeFirst(s: string, n: nat)
    requires s != [] && n == if IsSeparator(s[0]) then 1 else RunLength(s)
    ensures 0 < n <= |s| && Tokenize(s) == [s[..n]] + Tokenize(s[n..])
  {
  }

  lemma JoinCons(t: string, ts: seq<string>)
    ensures Join([t] + ts) == t + Join(ts)
  {
    assert ([t] + ts)[1..] == ts;
  }

  // ---------------------------------------------------------------------------------
  // The parenthesis counter of lines 198-204

  function DepthChange(c: char): int
  {
    if c == '(' then 1 else if c == ')' then -1 else 0
  }

  /** The counter after scanning all of `s`: opening minus closing parentheses. */
  function Depth(s: string): int
  {
    if s == [] then 0 else Depth(s[..|s| - 1]) + DepthChange(s[|s| - 1])
  }

  /** The counter never went below zero while scanning `s`. */
  predicate NeverNegative(s: string)
  {
    s == [] || (NeverNegative(s[..|s| - 1]) && Depth(s) >= 0)
  }

  lemma {:induction false} NeverNegativeIff(s: string)
    ensures NeverNegative(s) <==> forall k :: 0 <= k <= |s| ==> Depth(s[..k]) >= 0
  {
    if s != [] {
      var p := s[..|s| - 1];
      NeverNegativeIff(p);
      assert forall k :: 0 <= k <= |p| ==> p[..k] == s[..k];
      assert s[..|s|] == s;
    }
  }

  lemma {:induction false} DepthAppend(a: string, b: string)
    ensures Depth(a + b) == Depth(a) + Depth(b)
    decreases |b|
  {
    if b == [] {
      assert a + b == a;
    } else {
      assert (a + b)[..|a + b| - 1] == a + b[..|b| - 1];
      DepthAppend(a, b[..|b| - 1]);
    }
  }

  lemma {:induction false} DepthOfSeparatorFree(s: string)
    requires SeparatorFree(s)
    ensures Depth(s) == 0
  {
    if s != [] {
      DepthOfSeparatorFree(s[..|s| - 1]);
    }
  }

  /** Number of '(' characters. */
  function OpenCount(s: string): nat
  {
    if s == [] then 0 else (if s[0] == '(' then 1 else 0) + OpenCount(s[1..])
  }

  lemma {:induction false} OpenCountAppend(a: string, b: string)
    ensures OpenCount(a + b) == OpenCount(a) + OpenCount(b)
  {
    if a != [] {
      assert (a + b)[1..] == a[1..] + b;
      OpenCountAppend(a[1..], b);
    } else {
      assert a + b == b;
    }
  }

  lemma {:induction false} OpenCountZero(s: string)
    requires '(' !in s
    ensures OpenCount(s) == 0
  {
    if s != [] {
      OpenCountZero(s[1..]);
    }
  }

  lemma {:induction false} OpenCountPositive(s: string)
    requires '(' in s
    ensures OpenCount(s) > 0
  {
    if s[0] != '(' {
      OpenCountPositive(s[1..]);
    }
  }

  lemma {:induction false} StripKeepsOpenCount(s: string)
    ensures OpenCount(StripWhiteSpace(s)) == OpenCount(s)
  {
    if s != [] {
      StripKeepsOpenCount(s[1..]);
      if !IsWhiteSpace(s[0]) {
        OpenCountAppend([s[0]], StripWhiteSpace(s[1..]));
      }
    }
  }
}
