/** The scans of the expression evaluator told by positions and depths instead of
    loops, and what expressions that are not well formed evaluate to. */
module ExprScans {
  import opened Basics
  import opened Text
  import opened Expr
  import opened ExprSyntax
  import opened ExprFaithful

  // ---- numbers -------------------------------------------------------------------------

  predicate Decimal(s: string) { forall c | c in s :: '0' <= c <= '9' }

  predicate IsNumeral(s: string, sign: string, whole: string, fraction: string) {
    && (sign == "" || sign == "-") && whole != "" && Decimal(whole)
    && (fraction == "" || (|fraction| > 1 && fraction[0] == '.' && Decimal(fraction[1..])))
    && s == sign + whole + fraction
  }

  lemma AllDigits(s: string)
    requires Decimal(s)
    ensures Span(IsDigit, s) == |s|
  {
    forall k | 0 <= k < |s|
      ensures IsDigit(s[k])
    {
      assert s[k] in s;
    }
  }

  lemma SpansDigits(whole: string, rest: string)
    requires Decimal(whole) && (rest == "" || rest[0] == '.')
    ensures Span(IsDigit, whole + rest) == |whole|
  {
    var body := whole + rest;
    forall k | 0 <= k < |whole|
      ensures IsDigit(body[k])
    {
      assert body[k] == whole[k] && whole[k] in whole;
    }
    assert rest != "" ==> body[|whole|] == '.';
  }

  lemma NumeralIsNumber(s: string, sign: string, whole: string, fraction: string)
    requires IsNumeral(s, sign, whole, fraction)
    ensures IsNumber(s)
  {
    var body := whole + fraction;
    assert s == sign + body && body[0] == whole[0] && whole[0] in whole;
    assert (if s[0] == '-' then s[1..] else s) == body;
    SpansDigits(whole, fraction);
    if fraction != "" {
      AllDigits(fraction[1..]);
      assert body[|whole| + 1..] == fraction[1..];
    }
  }

  lemma DigitsAreDecimal(s: string)
    requires Span(IsDigit, s) == |s|
    ensures Decimal(s)
  {
  }

  lemma MantissaParts(body: string, n: nat) returns (whole: string, fraction: string)
    requires n == Span(IsDigit, body) && n > 0
    requires n == |body| || (body[n] == '.' && n + 1 < |body| && Span(IsDigit, body[n + 1..]) == |body| - n - 1)
    ensures body == whole + fraction && whole != "" && Decimal(whole)
    ensures fraction == "" || (|fraction| > 1 && fraction[0] == '.' && Decimal(fraction[1..]))
  {
    whole, fraction := body[..n], body[n..];
    if n < |body| {
      DigitsAreDecimal(body[n + 1..]);
      assert fraction[1..] == body[n + 1..];
    }
  }

  lemma NumberIsNumeral(s: string) returns (sign: string, whole: string, fraction: string)
    requires IsNumber(s)
    ensures IsNumeral(s, sign, whole, fraction)
  {
    var body := if s[0] == '-' then s[1..] else s;
    sign := if s[0] == '-' then "-" else "";
    whole, fraction := MantissaParts(body, Span(IsDigit, body));
    assert s == sign + body;
    Reassociate(sign, whole, fraction);
  }

  /** A number is an optional minus, digits, and perhaps a point with more digits. */
  lemma NumberIff(s: string)
    ensures IsNumber(s) <==> exists sign, whole, fraction :: IsNumeral(s, sign, whole, fraction)
  {
    if IsNumber(s) {
      var sign, whole, fraction := NumberIsNumeral(s);
    }
    if sign, whole, fraction :| IsNumeral(s, sign, whole, fraction) {
      NumeralIsNumber(s, sign, whole, fraction);
    }
  }

  // ---- depths ----------------------------------------------------------------------------

  /** By how much a character changes the depth of round or square brackets. */
  function Turn(c: char, round: bool, square: bool): int {
    if (round && c == '(') || (square && c == '[') then 1
    else if (round && c == ')') || (square && c == ']') then -1
    else 0
  }

  /** Opening brackets of these kinds before position i, less the closing ones. */
  function Depth(e: string, i: nat, round: bool, square: bool): int
    requires i <= |e|
  {
    if i == 0 then 0 else Depth(e, i - 1, round, square) + Turn(e[i - 1], round, square)
  }

  /** An operator stands here: outside all brackets, with something before it, and
      not as the tail of another. */
  predicate Operates(e: string, i: nat)
    requires i < |e|
  {
    && (e[i] == '=' || e[i] == '!') && i + 1 < |e| && e[i + 1] == '='
    && Depth(e, i, true, true) == 0
    && (i > 0 ==> e[i - 1] != '=' && e[i - 1] != '!')
    && !AllBlank(IsBlank, e[..i])
  }

  predicate NoOperator(e: string) { forall j | 0 <= j < |e| :: !Operates(e, j) }

  lemma OperatesIff(e: string, i: nat)
    requires i < |e|
    ensures Operates(e, i) <==> Depth(e, i, true, true) == 0 && Shift(e[i]) == 0 && OperatorAt(e, i)
  {
    TrimIsEmptyIff(IsBlank, e[..i]);
  }

  lemma ScanStep(e: string, i: nat, depth: int)
    requires i < |e|
    ensures EqualityFrom(e, i, depth)
         == if Shift(e[i]) == 0 && depth == 0 && OperatorAt(e, i) then Some(Found(i, OperatorText(e, i)))
            else EqualityFrom(e, i + 1, depth + Shift(e[i]))
  {
  }

  lemma {:induction false} ScanFinds(e: string, i: nat)
    requires i <= |e|
    ensures var r := EqualityFrom(e, i, Depth(e, i, true, true));
            && (r.None? ==> forall j | i <= j < |e| :: !Operates(e, j))
            && (r.Some? ==> i <= r.value.index && Operates(e, r.value.index)
                            && r.value.op == OperatorText(e, r.value.index)
                            && forall j | i <= j < r.value.index :: !Operates(e, j))
    decreases |e| - i
  {
    if i < |e| {
      OperatesIff(e, i);
      ScanStep(e, i, Depth(e, i, true, true));
      assert Depth(e, i + 1, true, true) == Depth(e, i, true, true) + Shift(e[i]);
      if !Operates(e, i) {
        ScanFinds(e, i + 1);
      }
    }
  }

  lemma OperatorIsThere(e: string, i: nat)
    requires i + 1 < |e| && e[i + 1] == '='
    ensures var op := OperatorText(e, i);
            && op == e[i..i + |op|]
            && |op| == if i + 2 < |e| && e[i + 2] == '=' then 3 else 2
  {
  }

  /** What the operator scan finds: the first operator, three characters long when
      another equality sign follows its two; nothing if there is none. */
  lemma FoundIff(e: string)
    ensures var r := EqualityFrom(e, 0, 0);
            && (r.None? <==> NoOperator(e))
            && (r.Some? ==>
                  && Operates(e, r.value.index) && (forall j | 0 <= j < r.value.index :: !Operates(e, j))
                  && r.value.op == e[r.value.index..r.value.index + |r.value.op|]
                  && |r.value.op| == if r.value.index + 2 < |e| && e[r.value.index + 2] == '=' then 3 else 2)
  {
    ScanFinds(e, 0);
    var r := EqualityFrom(e, 0, 0);
    if r.Some? {
      OperatorIsThere(e, r.value.index);
    }
  }

  lemma {:induction false} WrapsOn(e: string, i: nat)
    requires i <= |e|
    ensures WrapsFrom(e, i, Depth(e, i, true, false))
       <==> forall k | i < k < |e| :: e[k - 1] == ')' ==> Depth(e, k, true, false) != 0
    decreases |e| - i
  {
    if i < |e| - 1 {
      WrapsOn(e, i + 1);
    }
  }

  /** Parentheses wrap the whole when none before the last character closes to depth
      zero. */
  lemma WrapsIff(e: string)
    ensures WrapsFrom(e, 0, 0) <==> forall k | 0 < k < |e| :: e[k - 1] == ')' ==> Depth(e, k, true, false) != 0
  {
    WrapsOn(e, 0);
  }

  /** The bracket closing an open one is the first that brings the depth below. */
  lemma {:induction false} ClosesIff(e: string, j: nat, depth: nat)
    requires j <= |e| && depth > 0
    ensures var r, before := CloseFrom(e, j, depth), Depth(e, j, false, true) - depth;
            && (r.None? <==> forall k | j < k <= |e| :: Depth(e, k, false, true) > before)
            && (r.Some? ==> e[r.value] == ']' && Depth(e, r.value + 1, false, true) == before
                            && forall k | j < k <= r.value :: Depth(e, k, false, true) > before)
    decreases |e| - j
  {
    if j < |e| {
      assert Depth(e, j + 1, false, true) == Depth(e, j, false, true) + Turn(e[j], false, true);
      if e[j] != ']' || depth > 1 {
        ClosesIff(e, j + 1, if e[j] == '[' then depth + 1 else if e[j] == ']' then depth - 1 else depth);
      }
    }
  }

  // ---- expressions that are not well formed ------------------------------------------------

  /** Nothing at all is undefined. */
  lemma BlankIsMissing<V>(h: Host<V>, vals: V, src: string)
    requires AllBlank(IsBlank, src)
    ensures Resolve(h, vals, src) == h.missing
  {
    TrimIsEmptyIff(IsBlank, src);
  }

  predicate Letter(c: char) { 'A' <= c <= 'Z' || 'a' <= c <= 'z' || c == '_' || c == '$' }

  predicate Digit(c: char) { '0' <= c <= '9' }

  lemma IsPathText<V>(h: Host<V>, vals: V, e: string)
    requires e != [] && Trimmed(IsBlank, e) && NoOperator(e) && e[0] != '(' && e[0] != '!' && Constant(h, e).None?
    ensures Resolve(h, vals, e) == ResolvePath(h, vals, e)
  {
    FoundIff(e);
    TrimTrimmed(IsBlank, e);
    IsOperand(h, vals, e);
  }

  lemma NoConstant<V>(h: Host<V>, e: string)
    requires e != [] && !Letter(e[0]) && !Digit(e[0]) && e[0] != '-' && e[0] != '"' && e[0] != '\''
    ensures Constant(h, e).None?
  {
    assert Span(IsDigit, e) == 0;
  }

  /** What starts with none of a letter, a digit, a quote, a parenthesis, a minus and
      an exclamation mark, and compares nothing, is undefined. */
  lemma UnreadableIsMissing<V>(h: Host<V>, vals: V, e: string)
    requires e != [] && Trimmed(IsBlank, e) && NoOperator(e)
    requires !Letter(e[0]) && !Digit(e[0]) && e[0] !in "-\"'(!"
    ensures Resolve(h, vals, e) == h.missing
  {
    NoConstant(h, e);
    IsPathText(h, vals, e);
  }

  /** What cannot go on after a path: a point without a name or digits, a bracket that
      is never closed, anything else. */
  predicate Broken(rest: string) {
    rest != []
    && if rest[0] == '.' then |rest| == 1 || !(Letter(rest[1]) || Digit(rest[1]))
       else if rest[0] == '[' then ']' !in rest
       else !Letter(rest[0]) && !Digit(rest[0])
  }

  lemma StepsNowhere<V>(h: Host<V>, vals: V, e: string, cur: V, i: nat)
    requires i <= |e| && Broken(e[i..])
    ensures PathFrom(h, vals, e, cur, i) == h.missing
  {
    var rest := e[i..];
    assert rest[0] == e[i] && (|rest| > 1 ==> rest[1] == e[i + 1]);
    if e[i] == '[' {
      ClosesIff(e, i + 1, 1);
      forall k | i < k < |e|
        ensures e[k] != ']'
      {
        assert rest[k - i] == e[k] && rest[k - i] in rest;
      }
    }
  }

  /** A path that breaks off is undefined, whatever it has led to. */
  lemma BrokenPathIsMissing<V>(h: Host<V>, vals: V, a: Ast, rest: string)
    requires IsPath(a) && Broken(rest)
    ensures ResolvePath(h, vals, Print(a) + rest) == h.missing
  {
    var e, i := Print(a) + rest, |Print(a)|;
    assert e[i..] == rest && e[i] == rest[0] && At(e, 0, Print(a));
    FollowsPath(h, vals, a, e);
    StepsNowhere(h, vals, e, Eval(h, vals, a), i);
  }
}
