/** Evaluating the text of an expression is evaluating its tree. */
module ExprFaithful {
  import opened Basics
  import opened Text
  import opened Expr
  import opened ExprSyntax

  // ---- what one step of the evaluator does on text of a known shape ---------------

  lemma ResolvesPadded<V>(h: Host<V>, vals: V, before: string, s: string, after: string)
    requires Blank(before) && Blank(after) && Trimmed(IsBlank, s)
    ensures Resolve(h, vals, before + s + after) == ResolveTrimmed(h, vals, s)
  {
    TrimPadded(IsBlank, before, s, after);
  }

  lemma WrapsWhole(s: string)
    requires Nests(Round, s)
    ensures WrapsFrom("(" + s + ")", 0, 0)
  {
    var e := "(" + s + ")";
    assert At(e, 1, s);
    WrapsSkips(e, 1, s, 0, 0);
    assert WrapsFrom(e, 0, 0) == WrapsFrom(e, 1, 1);
  }

  lemma ResolvesParens<V>(h: Host<V>, vals: V, s: string)
    requires Nests(Round, s)
    ensures ResolveTrimmed(h, vals, "(" + s + ")") == Resolve(h, vals, s)
  {
    WrapsWhole(s);
    assert ("(" + s + ")")[1..|"(" + s + ")"| - 1] == s;
  }

  /** An opening bracket that is closed before the end does not wrap the whole. */
  lemma ClosesEarly(s: string, rest: string)
    requires Nests(Round, s) && rest != []
    ensures !WrapsFrom("(" + s + ")" + rest, 0, 0)
  {
    var e := "(" + s + ")" + rest;
    assert At(e, 1, s);
    WrapsSkips(e, 1, s, 0, 0);
    assert WrapsFrom(e, 0, 0) == WrapsFrom(e, 1, 1);
    assert e[1 + |s|] == ')';
  }

  lemma ResolvesNot<V>(h: Host<V>, vals: V, s: string)
    requires Nests(Silent, "!" + s) && s != [] && s[|s| - 1] != '!'
    ensures ResolveTrimmed(h, vals, "!" + s) == h.truth(!h.truthy(Resolve(h, vals, s)))
  {
    var e := "!" + s;
    assert e[1..] == s;
    NoEquality(e);
    IsOperand(h, vals, e);
  }

  predicate IsSymbol(s: string) {
    2 <= |s| <= 3 && IsEqualitySign(s[0]) && forall k | 0 < k < |s| :: s[k] == '='
  }

  /** Nothing in the prefix is an operator. */
  lemma SkipsPrefix(e: string, prefix: string)
    requires prefix != [] && |prefix| <= |e| && e[..|prefix|] == prefix
    requires Nests(Silent, prefix) && !IsEqualitySign(prefix[|prefix| - 1])
    ensures EqualityFrom(e, 0, 0) == EqualityFrom(e, |prefix|, 0)
  {
    EqualitySkips(e, prefix, 0, 0);
  }

  lemma ReadsSymbol(e: string, i: nat, sym: string)
    requires IsSymbol(sym) && At(e, i, sym) && i + |sym| < |e| && e[i + |sym|] != '='
    ensures e[i] == sym[0] && e[i + 1] == '=' && OperatorText(e, i) == sym
  {
    assert e[i..i + |sym|][0] == e[i] && e[i..i + |sym|][1] == e[i + 1];
    if |sym| == 3 {
      assert sym == [sym[0], sym[1], sym[2]];
      assert e[i + 2] == sym[2];
    } else {
      assert sym == [sym[0], sym[1]];
    }
  }

  lemma PaddedLast(left: string, before: string)
    requires Ends(left) && Blank(before)
    ensures !IsEqualitySign((left + before)[|left + before| - 1])
  {
    if before == [] {
      assert left + before == left;
    } else {
      assert (left + before)[|left + before| - 1] == before[|before| - 1];
      assert before[|before| - 1] in before;
    }
  }

  lemma PaddedNesting(left: string, before: string)
    requires Nests(Silent, left) && Blank(before)
    ensures Nests(Silent, left + before)
  {
    PlainNests(Silent, before);
    NestsThree(Silent, left, before, []);
    assert left + before + [] == left + before;
  }

  lemma PaddedTrim(left: string, before: string)
    requires Trimmed(IsBlank, left) && Blank(before)
    ensures Trim(IsBlank, left + before) == left
  {
    assert [] + left + before == left + before;
    TrimPadded(IsBlank, [], left, before);
  }

  lemma SignIsOperator(e: string, i: nat, sym: string)
    requires 0 < i && IsSymbol(sym) && At(e, i, sym) && i + |sym| < |e| && e[i + |sym|] != '='
    requires !IsEqualitySign(e[i - 1]) && Trim(IsBlank, e[..i]) != []
    ensures EqualityFrom(e, i, 0) == Some(Found(i, sym))
  {
    ReadsSymbol(e, i, sym);
    assert Shift(e[i]) == 0;
  }

  lemma Middle(a: string, b: string, c: string)
    ensures (a + b + c)[..|a|] == a && (a + b + c)[|a|..|a| + |b|] == b
  {
  }

  /** The leftmost operator outside every bracket is the one found. */
  lemma FindsOperator(left: string, before: string, sym: string, right: string)
    requires Nests(Silent, left) && Ends(left) && Blank(before) && IsSymbol(sym) && right != [] && right[0] != '='
    ensures EqualityFrom(left + before + sym + right, 0, 0) == Some(Found(|left + before|, sym))
  {
    var prefix := left + before;
    var e := prefix + sym + right;
    Middle(prefix, sym, right);
    PaddedNesting(left, before);
    PaddedTrim(left, before);
    PaddedLast(left, before);
    SkipsPrefix(e, prefix);
    SignIsOperator(e, |prefix|, sym);
  }

  lemma ComparesAs<V>(h: Host<V>, op: Equality, l: V, r: V)
    ensures Compare(h, Symbol(op), l, r) == Meaning(h, op, l, r)
  {
  }

  lemma ResolvesEqual<V>(h: Host<V>, vals: V, left: string, before: string, op: Equality, right: string)
    requires Nests(Silent, left) && Ends(left) && Blank(before) && right != [] && right[0] != '='
    requires !Wrapped(left + before + Symbol(op) + right)
    ensures ResolveTrimmed(h, vals, left + before + Symbol(op) + right)
         == Meaning(h, op, Resolve(h, vals, left + before), Resolve(h, vals, right))
  {
    var prefix, sym := left + before, Symbol(op);
    var e := prefix + sym + right;
    assert e[..|prefix|] == prefix;
    assert e[|prefix| + |sym|..] == right;
    FindsOperator(left, before, sym, right);
    IsComparison(h, vals, e, |prefix|, sym);
    ComparesAs(h, op, Resolve(h, vals, prefix), Resolve(h, vals, right));
  }

  // ---- paths ------------------------------------------------------------------------

  /** Where a name in a path may stop. */
  predicate NameStops(e: string, i: nat) {
    i == |e| || (i < |e| && !IsIdentPart(e[i]))
  }

  lemma ReadsName(e: string, i: nat, name: string)
    requires At(e, i, name) && NameStops(e, i + |name|) && (Identifier(name) || Digits(name))
    ensures NameEnd(e, i) == i + |name|
    ensures Identifier(name) ==> IdentEnd(e, i) == i + |name|
  {
    assert forall k | i <= k < i + |name| :: e[k] == e[i..i + |name|][k - i] == name[k - i];
    if Identifier(name) {
      assert forall k | 0 <= k < |name| :: IsIdentPart(name[k]);
    }
  }

  lemma StepsMember<V>(h: Host<V>, vals: V, e: string, cur: V, i: nat, name: string, n: nat)
    requires i < |e| && e[i] == '.' && At(e, i + 1, name) && n == i + 1 + |name| && NameStops(e, n)
    requires Identifier(name) || Digits(name)
    ensures PathFrom(h, vals, e, cur, i) == PathFrom(h, vals, e, h.get(cur, h.text(name)), n)
  {
    ReadsName(e, i + 1, name);
    assert e[i + 1..n] == name;
    AfterMember(h, vals, e, cur, i, n);
  }

  lemma ClosesAt(e: string, i: nat, j: nat)
    requires i <= j < |e| && e[j] == ']' && Nests(Square, e[i..j])
    ensures CloseFrom(e, i, 1) == Some(j)
  {
    CloseSkips(e, i, e[i..j], 0, 0);
  }

  lemma AtParts(e: string, i: nat, p: string, q: string)
    requires At(e, i, p + q)
    ensures At(e, i, p) && At(e, i + |p|, q)
    ensures q != [] ==> e[i + |p|] == q[0]
  {
    assert e[i..i + |p|] == e[i..i + |p + q|][..|p|];
    assert e[i + |p|..i + |p| + |q|] == e[i..i + |p + q|][|p|..];
    if q != [] {
      assert e[i + |p|..i + |p| + |q|][0] == e[i + |p|];
    }
  }

  lemma {:induction false} FollowsPath<V>(h: Host<V>, vals: V, a: Ast, e: string)
    requires IsPath(a) && At(e, 0, Print(a)) && NameStops(e, |Print(a)|)
    ensures ResolvePath(h, vals, e) == PathFrom(h, vals, e, Eval(h, vals, a), |Print(a)|)
    decreases a, 0, 1
  {
    match a
    case Name(name) =>
      ReadsName(e, 0, name);
      assert e[..|name|] == name;
    case Member(_, _) => FollowsMember(h, vals, a, e);
    case Item(base, _, _, _) =>
      ItemStarts(a, e);
      FollowsPath(h, vals, base, e);
      StepsItem(h, vals, a, e, Eval(h, vals, base), |Print(base)|);
  }

  lemma ItemStarts(a: Ast, e: string)
    requires a.Item? && At(e, 0, Print(a))
    ensures At(e, 0, Print(a.base)) && NameStops(e, |Print(a.base)|)
  {
    var p, s := Print(a.base), a.before + Print(a.index) + a.after;
    assert Print(a) == Subscripted(p, s);
    ItemText(e, p, s, |p|, |p| + 1 + |s|);
  }

  lemma FollowsMember<V>(h: Host<V>, vals: V, a: Ast, e: string)
    requires a.Member? && IsPath(a) && At(e, 0, Print(a)) && NameStops(e, |Print(a)|)
    ensures ResolvePath(h, vals, e) == PathFrom(h, vals, e, Eval(h, vals, a), |Print(a)|)
    decreases a, 0, 0
  {
    MemberStarts(a, e);
    FollowsPath(h, vals, a.base, e);
    StepsMember(h, vals, e, Eval(h, vals, a.base), |Print(a.base)|, a.name, |Print(a)|);
  }

  lemma MemberStarts(a: Ast, e: string)
    requires a.Member? && At(e, 0, Print(a))
    ensures var i := |Print(a.base)|;
            && At(e, 0, Print(a.base)) && NameStops(e, i) && i < |e| && e[i] == '.'
            && At(e, i + 1, a.name) && |Print(a)| == i + 1 + |a.name|
  {
    var p := Print(a.base);
    AtParts(e, 0, p + ".", a.name);
    AtParts(e, 0, p, ".");
  }

  function Subscripted(p: string, s: string): string { p + "[" + s + "]" }

  lemma ItemText(e: string, p: string, s: string, i: nat, j: nat)
    requires At(e, 0, Subscripted(p, s)) && i == |p| && j == i + 1 + |s|
    ensures At(e, 0, p) && j < |e| && e[i] == '[' && e[i + 1..j] == s && e[j] == ']'
  {
    var head := p + "[";
    AtParts(e, 0, head + s, "]");
    AtParts(e, 0, head, s);
    AtParts(e, 0, p, "[");
  }

  /** A subscript of a path is found between positions i and j. */
  lemma ItemFound(a: Ast, e: string, s: string, i: nat, j: nat)
    requires a.Item? && IsPath(a) && At(e, 0, Print(a)) && s == a.before + Print(a.index) + a.after
    requires i == |Print(a.base)| && j == i + 1 + |s|
    ensures j + 1 == |Print(a)| && j < |e| && e[i] == '[' && e[i + 1..j] == s
    ensures CloseFrom(e, i + 1, 1) == Some(j)
  {
    PrintNests(Square, a.index);
    PaddedNests(Square, a.before, Print(a.index), a.after);
    ItemText(e, Print(a.base), s, i, j);
    ClosesAt(e, i + 1, j);
  }

  lemma AfterText<V>(h: Host<V>, vals: V, e: string, cur: V, i: nat, j: nat, s: string, v: V)
    requires i < j < |e| && e[i] == '[' && e[i + 1..j] == s && CloseFrom(e, i + 1, 1) == Some(j)
    requires Resolve(h, vals, s) == v
    ensures PathFrom(h, vals, e, cur, i) == PathFrom(h, vals, e, h.get(cur, v), j + 1)
  {
    AfterItem(h, vals, e, cur, i, j);
  }

  lemma StepsItem<V>(h: Host<V>, vals: V, a: Ast, e: string, cur: V, i: nat)
    requires a.Item? && IsPath(a) && At(e, 0, Print(a)) && i == |Print(a.base)|
    ensures PathFrom(h, vals, e, cur, i)
         == PathFrom(h, vals, e, h.get(cur, Eval(h, vals, a.index)), |Print(a)|)
    decreases a, 0, 0
  {
    var s := a.before + Print(a.index) + a.after;
    var j := i + 1 + |s|;
    ItemFound(a, e, s, i, j);
    Understood(h, vals, a.before, a.index, a.after);
    AfterText(h, vals, e, cur, i, j, s, Eval(h, vals, a.index));
  }

  lemma WordIsNoConstant<V>(h: Host<V>, e: string)
    requires e != [] && IsIdentStart(e[0]) && !Keyword(e)
    ensures Constant(h, e) == None
  {
    assert Span(IsDigit, e) == 0;
  }

  lemma KeywordIsAWord(e: string)
    requires Keyword(e)
    ensures '.' !in e && '[' !in e
  {
  }

  /** A path is no keyword, number or quoted text. */
  lemma PathIsNoConstant<V>(h: Host<V>, a: Ast)
    requires IsPath(a) && Spelled(a)
    ensures Constant(h, Print(a)) == None && Print(a)[0] != '(' && Print(a)[0] != '!'
  {
    PathStarts(a);
    PathIsNoKeyword(a);
    WordIsNoConstant(h, Print(a));
  }

  lemma PathIsNoKeyword(a: Ast)
    requires IsPath(a) && Spelled(a)
    ensures !Keyword(Print(a))
  {
    if !a.Name? {
      assert Print(a)[|Print(a.base)|] == if a.Member? then '.' else '[';
      if Keyword(Print(a)) {
        KeywordIsAWord(Print(a));
      }
    }
  }

  lemma {:induction false} PathStarts(a: Ast)
    requires IsPath(a)
    ensures Print(a) != [] && IsIdentStart(Print(a)[0])
  {
    match a
    case Name(_) =>
    case Member(base, _) => PathStarts(base);
    case Item(base, _, _, _) => PathStarts(base);
  }

  // ---- quoted literals ------------------------------------------------------------------

  lemma ComparesToATruth<V>(h: Host<V>, op: string, l: V, r: V)
    ensures Compare(h, op, l, r) == h.truth(true) || Compare(h, op, l, r) == h.truth(false)
  {
    var strict, loose := h.strict(l, r), h.loose(l, r);
    assert h.truth(strict) == (if strict then h.truth(true) else h.truth(false));
    assert h.truth(loose) == (if loose then h.truth(true) else h.truth(false));
    assert h.truth(!strict) == (if strict then h.truth(false) else h.truth(true));
    assert h.truth(!loose) == (if loose then h.truth(false) else h.truth(true));
  }

  /** A quoted literal yields its text exactly when no equality operator is found
      in it: the scans do not know about quotes. */
  lemma LiteralIffNoOperator<V>(h: Host<V>, vals: V, e: string)
    requires |e| >= 2 && (e[0] == '"' || e[0] == '\'') && e[|e| - 1] == e[0]
    requires h.text(e[1..|e| - 1]) != h.truth(true) && h.text(e[1..|e| - 1]) != h.truth(false)
    ensures Resolve(h, vals, e) == h.text(e[1..|e| - 1]) <==> EqualityFrom(e, 0, 0) == None
  {
    LiteralIsConstant(h, e);
    TrimTrimmed(IsBlank, e);
    var eq := EqualityFrom(e, 0, 0);
    if eq.Some? {
      var i, op := eq.value.index, eq.value.op;
      IsComparison(h, vals, e, i, op);
      ComparesToATruth(h, op, Resolve(h, vals, e[..i]), Resolve(h, vals, e[i + |op|..]));
    } else {
      IsOperand(h, vals, e);
    }
  }

  /** For instance the literal "a==b" evaluates to a truth value. */
  lemma LiteralWithOperator()
    ensures EqualityFrom("\"a==b\"", 0, 0) == Some(Found(2, "=="))
  {
    var e := "\"a==b\"";
    assert e[..2] == "\"a";
    assert EqualityFrom(e, 2, 0) == Some(Found(2, "==")) by {
      ReadsSymbol(e, 2, "==");
      assert Trim(IsBlank, e[..2]) != [] by {
        TrimPadded(IsBlank, [], e[..2], []);
        assert [] + e[..2] + [] == e[..2];
      }
    }
    assert EqualityFrom(e, 1, 0) == EqualityFrom(e, 2, 0);
  }

  // ---- the theorem --------------------------------------------------------------------

  /** A spelling means what its tree means, whatever blanks surround it. */
  lemma Understood<V>(h: Host<V>, vals: V, before: string, a: Ast, after: string)
    requires Spelled(a) && Blank(before) && Blank(after)
    ensures Resolve(h, vals, before + Print(a) + after) == Eval(h, vals, a)
    decreases a, 3
  {
    PrintEnds(a);
    ResolvesPadded(h, vals, before, Print(a), after);
    Faithful(h, vals, a);
  }

  lemma {:induction false} Faithful<V>(h: Host<V>, vals: V, a: Ast)
    requires Spelled(a)
    ensures ResolveTrimmed(h, vals, Print(a)) == Eval(h, vals, a)
    decreases a, 2
  {
    match a
    case Name(_) => FaithfulPath(h, vals, a);
    case Member(_, _) => FaithfulPath(h, vals, a);
    case Item(_, _, _, _) => FaithfulPath(h, vals, a);
    case Parens(before, inner, after) =>
      PrintNests(Round, inner);
      PaddedNests(Round, before, Print(inner), after);
      ResolvesParens(h, vals, before + Print(inner) + after);
      Understood(h, vals, before, inner, after);
    case Not(before, operand) =>
      var s := before + Print(operand);
      PrintEnds(a);
      PrintNests(Silent, a);
      ResolvesNot(h, vals, s);
      assert before + Print(operand) + [] == s;
      Understood(h, vals, before, operand, []);
    case Equal(_, _, _, _, _) => FaithfulEqual(h, vals, a);
    case _ => FaithfulConstant(h, vals, a);
  }

  lemma Regroup(a: string, b: string, c: string, d: string)
    ensures a + b + c + d == a + (b + c + d)
  {
  }

  lemma FaithfulEqual<V>(h: Host<V>, vals: V, a: Ast)
    requires a.Equal? && Spelled(a)
    ensures ResolveTrimmed(h, vals, Print(a)) == Eval(h, vals, a)
    decreases a, 1
  {
    var l, r := Print(a.left), a.after + Print(a.right);
    Regroup(l, a.before, Symbol(a.op), r);
    assert [] + l + a.before == l + a.before;
    assert r + [] == r;
    Understood(h, vals, [], a.left, a.before);
    Understood(h, vals, a.after, a.right, []);
    PrintEnds(a.left);
    PrintEnds(a.right);
    PrintNests(Silent, a.left);
    LeftDoesNotWrap(a.left, a.before + Symbol(a.op) + r);
    assert l[0] == (l + (a.before + Symbol(a.op) + r))[0];
    assert a.after != [] ==> a.after[0] in a.after;
    ResolvesEqual(h, vals, l, a.before, a.op, r);
  }

  lemma LiteralIsConstant<V>(h: Host<V>, e: string)
    requires |e| >= 2 && (e[0] == '"' || e[0] == '\'') && e[|e| - 1] == e[0]
    ensures !Wrapped(e) && Constant(h, e) == Some(h.text(e[1..|e| - 1]))
  {
    assert !Keyword(e) && Span(IsDigit, e) == 0;
  }

  lemma NumberIsConstant<V>(h: Host<V>, digits: string)
    requires IsNumber(digits)
    ensures digits != [] && digits[0] != '(' && digits[0] != '!'
    ensures Constant(h, digits) == Some(h.number(digits))
  {
    NumberIsPlain(digits);
    assert digits[0] in digits;
    assert digits[0] == '-' || IsDigit(digits[0]);
    assert !Keyword(digits);
  }

  lemma AtomIsConstant<V>(h: Host<V>, vals: V, a: Ast)
    requires Spelled(a) && IsAtom(a) && !a.Name?
    ensures Print(a) != [] && Print(a)[0] != '(' && Print(a)[0] != '!'
    ensures Constant(h, Print(a)) == Some(Eval(h, vals, a))
  {
    if a.Quoted? {
      var e := Print(a);
      assert e[1..|e| - 1] == a.body;
      LiteralIsConstant(h, e);
    } else if a.Number? {
      NumberIsConstant(h, a.digits);
    }
  }

  lemma FaithfulConstant<V>(h: Host<V>, vals: V, a: Ast)
    requires Spelled(a) && IsAtom(a) && !a.Name?
    ensures ResolveTrimmed(h, vals, Print(a)) == Eval(h, vals, a)
  {
    AtomIsConstant(h, vals, a);
    PrintEnds(a);
    PrintNests(Silent, a);
    NoEquality(Print(a));
    IsOperand(h, vals, Print(a));
  }

  lemma FaithfulPath<V>(h: Host<V>, vals: V, a: Ast)
    requires Spelled(a) && IsPath(a)
    ensures ResolveTrimmed(h, vals, Print(a)) == Eval(h, vals, a)
    decreases a, 1
  {
    var e := Print(a);
    assert e[0..|e|] == e;
    PathIsNoConstant(h, a);
    PrintEnds(a);
    PrintNests(Silent, a);
    NoEquality(e);
    IsOperand(h, vals, e);
    FollowsPath(h, vals, a, e);
  }

  lemma LeftDoesNotWrap(left: Ast, rest: string)
    requires Spelled(left) && !left.Equal? && rest != []
    ensures Print(left) != [] && (Print(left)[0] == '(' ==> !WrapsFrom(Print(left) + rest, 0, 0))
  {
    PrintEnds(left);
    match left
    case Parens(before, inner, after) =>
      PrintNests(Round, inner);
      PaddedNests(Round, before, Print(inner), after);
      ClosesEarly(before + Print(inner) + after, rest);
    case Name(_) => PathStarts(left);
    case Member(_, _) => PathStarts(left);
    case Item(_, _, _, _) => PathStarts(left);
    case Number(digits) => NumberIsPlain(digits); assert digits[0] in digits;
    case _ =>
  }

  // ---- keywords and operators, by their texts ----------------------------------------------

  lemma KeywordTexts<V>(h: Host<V>, vals: V)
    ensures Resolve(h, vals, "true") == h.truth(true) && Resolve(h, vals, "false") == h.truth(false)
    ensures Resolve(h, vals, "null") == h.nil && Resolve(h, vals, "undefined") == h.missing
  {
    Unpadded("true");
    Unpadded("false");
    Unpadded("null");
    Unpadded("undefined");
    Understood(h, vals, "", True, "");
    Understood(h, vals, "", False, "");
    Understood(h, vals, "", Null, "");
    Understood(h, vals, "", Undefined, "");
  }

  lemma Spaced(l: string, symbol: string, spaced: string, r: string)
    requires spaced == " " + symbol + " "
    ensures l + " " + symbol + (" " + r) == l + spaced + r
  {
  }

  lemma ComparesText<V>(h: Host<V>, vals: V, l: Ast, op: Equality, spaced: string, r: Ast)
    requires Spelled(l) && !l.Equal? && Spelled(r) && spaced == " " + Symbol(op) + " "
    ensures Resolve(h, vals, Print(l) + spaced + Print(r)) == Meaning(h, op, Eval(h, vals, l), Eval(h, vals, r))
  {
    var tree := Equal(l, " ", op, " ", r);
    Spaced(Print(l), Symbol(op), spaced, Print(r));
    Unpadded(Print(tree));
    Understood(h, vals, "", tree, "");
  }

  lemma SpacedSymbols()
    ensures " === " == " " + Symbol(StrictlyEqual) + " " && " !== " == " " + Symbol(StrictlyUnequal) + " "
    ensures " == " == " " + Symbol(LooselyEqual) + " " && " != " == " " + Symbol(LooselyUnequal) + " "
  {
  }

  lemma Meanings<V>(h: Host<V>, a: V, b: V)
    ensures Meaning(h, StrictlyEqual, a, b) == h.truth(h.strict(a, b))
    ensures Meaning(h, StrictlyUnequal, a, b) == h.truth(!h.strict(a, b))
    ensures Meaning(h, LooselyEqual, a, b) == h.truth(h.loose(a, b))
    ensures Meaning(h, LooselyUnequal, a, b) == h.truth(!h.loose(a, b))
  {
  }

  /** Three signs compare strictly, two loosely; an exclamation mark negates. */
  lemma OperatorTexts<V>(h: Host<V>, vals: V, l: Ast, r: Ast)
    requires Spelled(l) && !l.Equal? && Spelled(r)
    ensures var a, b := Eval(h, vals, l), Eval(h, vals, r);
            && Resolve(h, vals, Print(l) + " === " + Print(r)) == h.truth(h.strict(a, b))
            && Resolve(h, vals, Print(l) + " !== " + Print(r)) == h.truth(!h.strict(a, b))
            && Resolve(h, vals, Print(l) + " == " + Print(r)) == h.truth(h.loose(a, b))
            && Resolve(h, vals, Print(l) + " != " + Print(r)) == h.truth(!h.loose(a, b))
  {
    var a, b := Eval(h, vals, l), Eval(h, vals, r);
    SpacedSymbols();
    Meanings(h, a, b);
    assert Resolve(h, vals, Print(l) + " === " + Print(r)) == h.truth(h.strict(a, b)) by {
      ComparesText(h, vals, l, StrictlyEqual, " === ", r);
    }
    assert Resolve(h, vals, Print(l) + " !== " + Print(r)) == h.truth(!h.strict(a, b)) by {
      ComparesText(h, vals, l, StrictlyUnequal, " !== ", r);
    }
    assert Resolve(h, vals, Print(l) + " == " + Print(r)) == h.truth(h.loose(a, b)) by {
      ComparesText(h, vals, l, LooselyEqual, " == ", r);
    }
    assert Resolve(h, vals, Print(l) + " != " + Print(r)) == h.truth(!h.loose(a, b)) by {
      ComparesText(h, vals, l, LooselyUnequal, " != ", r);
    }
  }

  // ---- chains of equalities --------------------------------------------------------------

  /** A chain of two equalities groups to the right. */
  lemma ChainGroupsRight<V>(h: Host<V>, vals: V, l: Ast, p: Equality, m: Ast, q: Equality, r: Ast)
    requires Spelled(l) && !l.Equal? && Spelled(m) && !m.Equal? && Spelled(r)
    ensures Resolve(h, vals, Print(Equal(l, " ", p, " ", Equal(m, " ", q, " ", r))))
         == Meaning(h, p, Eval(h, vals, l), Meaning(h, q, Eval(h, vals, m), Eval(h, vals, r)))
  {
    var chain := Equal(l, " ", p, " ", Equal(m, " ", q, " ", r));
    Unpadded(Print(chain));
    Understood(h, vals, "", chain, "");
  }

  lemma Unpadded(s: string)
    ensures "" + s + "" == s
  {
  }

  /** In JavaScript it groups to the left, and this chain tells the two apart. */
  lemma ChainDiffers<V>(h: Host<V>, vals: V)
    requires var one, yes, no := h.number("1"), h.truth(true), h.truth(false);
             h.strict(one, one) && h.strict(yes, yes) && !h.strict(one, yes) && !h.strict(one, no)
    ensures Resolve(h, vals, "1 === 1 === true") == h.truth(false)
    ensures Meaning(h, StrictlyEqual, Meaning(h, StrictlyEqual, h.number("1"), h.number("1")), h.truth(true))
         == h.truth(true)
  {
    ChainText();
    ChainGroupsRight(h, vals, Number("1"), StrictlyEqual, Number("1"), StrictlyEqual, True);
  }

  lemma ChainText()
    ensures Spelled(Number("1"))
    ensures Print(Equal(Number("1"), " ", StrictlyEqual, " ",
                        Equal(Number("1"), " ", StrictlyEqual, " ", True))) == "1 === 1 === true"
  {
    assert "1" + " " + "===" + (" " + "true") == "1 === true";
    assert "1" + " " + "===" + (" " + "1 === true") == "1 === 1 === true";
  }
}
