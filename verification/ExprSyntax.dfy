/** What the template expressions mean: an abstract syntax with its semantics and
    its spelling, and the proof that evaluating the text is evaluating the tree. */
module ExprSyntax {
  import opened Basics
  import opened Text
  import opened Expr

  datatype Equality = StrictlyEqual | StrictlyUnequal | LooselyEqual | LooselyUnequal

  /** Fields named `before` and `after` are blank padding. */
  datatype Ast =
    | True | False | Null | Undefined
    | Number(digits: string)
    | Quoted(quote: char, body: string)
    | Name(name: string)
    | Member(base: Ast, name: string)
    | Item(base: Ast, before: string, index: Ast, after: string)
    | Not(before: string, operand: Ast)
    | Equal(left: Ast, before: string, op: Equality, after: string, right: Ast)
    | Parens(before: string, inner: Ast, after: string)

  function Symbol(op: Equality): string {
    match op
    case StrictlyEqual => "==="
    case StrictlyUnequal => "!=="
    case LooselyEqual => "=="
    case LooselyUnequal => "!="
  }

  function Print(a: Ast): string {
    match a
    case True => "true"
    case False => "false"
    case Null => "null"
    case Undefined => "undefined"
    case Number(digits) => digits
    case Quoted(quote, body) => [quote] + body + [quote]
    case Name(name) => name
    case Member(base, name) => Print(base) + "." + name
    case Item(base, before, index, after) => Print(base) + "[" + (before + Print(index) + after) + "]"
    case Not(before, operand) => "!" + (before + Print(operand))
    case Equal(left, before, op, after, right) => Print(left) + before + Symbol(op) + (after + Print(right))
    case Parens(before, inner, after) => "(" + (before + Print(inner) + after) + ")"
  }

  function Meaning<V>(h: Host<V>, op: Equality, l: V, r: V): V {
    match op
    case StrictlyEqual => h.truth(h.strict(l, r))
    case StrictlyUnequal => h.truth(!h.strict(l, r))
    case LooselyEqual => h.truth(h.loose(l, r))
    case LooselyUnequal => h.truth(!h.loose(l, r))
  }

  function Eval<V>(h: Host<V>, vals: V, a: Ast): V {
    match a
    case True => h.truth(true)
    case False => h.truth(false)
    case Null => h.nil
    case Undefined => h.missing
    case Number(digits) => h.number(digits)
    case Quoted(_, body) => h.text(body)
    case Name(name) => h.get(vals, h.text(name))
    case Member(base, name) => h.get(Eval(h, vals, base), h.text(name))
    case Item(base, _, index, _) => h.get(Eval(h, vals, base), Eval(h, vals, index))
    case Not(_, operand) => h.truth(!h.truthy(Eval(h, vals, operand)))
    case Parens(_, inner, _) => Eval(h, vals, inner)
    case Equal(left, _, op, _, right) => Meaning(h, op, Eval(h, vals, left), Eval(h, vals, right))
  }

  // ---- which trees have a spelling -------------------------------------------------

  predicate Blank(s: string) { AllBlank(IsBlank, s) }

  predicate Identifier(s: string) {
    s != [] && IsIdentStart(s[0]) && forall k | 0 < k < |s| :: IsIdentPart(s[k])
  }

  predicate Digits(s: string) { s != [] && forall k | 0 <= k < |s| :: IsDigit(s[k]) }

  predicate Keyword(s: string) { s == "true" || s == "false" || s == "null" || s == "undefined" }

  predicate Structural(c: char) { c in "()[]=!" }

  /** Names, and members and items of paths. */
  predicate IsPath(a: Ast)
    decreases a, 0
  {
    match a
    case Name(name) => Identifier(name)
    case Member(base, name) => IsPath(base) && (Identifier(name) || Digits(name))
    case Item(base, before, index, after) => IsPath(base) && Blank(before) && Blank(after) && Spelled(index)
    case _ => false
  }

  /** An equality stands in parentheses when it is an operand, except as the right
      operand of another equality, so that a chain groups to the right. */
  predicate Spelled(a: Ast)
    decreases a, 1
  {
    match a
    case True | False | Null | Undefined => true
    case Number(digits) => IsNumber(digits)
    case Quoted(quote, body) => (quote == '"' || quote == '\'') && forall c | c in body :: !Structural(c)
    case Name(name) => IsPath(a) && !Keyword(name)
    case Member(_, _) => IsPath(a)
    case Item(_, _, _, _) => IsPath(a)
    case Not(before, operand) => Blank(before) && Spelled(operand) && !operand.Equal?
    case Equal(left, before, _, after, right) =>
      Blank(before) && Blank(after) && Spelled(left) && !left.Equal? && Spelled(right)
    case Parens(before, inner, after) => Blank(before) && Blank(after) && Spelled(inner)
  }

  // ---- nesting ----------------------------------------------------------------------

  /** What a scan counts: round, square or both brackets, or both while also
      forbidding `=` outside every bracket. */
  datatype Count = Round | Square | Both | Silent

  function Change(k: Count, c: char): int {
    if (k.Round? && c in "[]") || (k.Square? && c in "()") then 0 else Shift(c)
  }

  /** The depth after s, read from position i at depth d; None if a bracket goes
      unopened. */
  function Run(k: Count, s: string, i: nat, d: nat): Option<nat>
    requires i <= |s|
    decreases |s| - i
  {
    if i == |s| then Some(d)
    else if k.Silent? && d == 0 && s[i] == '=' then None
    else if d + Change(k, s[i]) < 0 then None
    else Run(k, s, i + 1, d + Change(k, s[i]))
  }

  predicate Nests(k: Count, s: string) { Run(k, s, 0, 0) == Some(0) }

  lemma {:induction false} RunSuffix(k: Count, a: string, b: string, i: nat, d: nat)
    requires i <= |b|
    ensures Run(k, a + b, |a| + i, d) == Run(k, b, i, d)
    decreases |b| - i
  {
    if i < |b| && d + Change(k, b[i]) >= 0 {
      RunSuffix(k, a, b, i + 1, d + Change(k, b[i]));
    }
  }

  lemma {:induction false} RunAppend(k: Count, a: string, b: string, i: nat, d: nat)
    requires i <= |a| && Run(k, a, i, d).Some?
    ensures Run(k, a + b, i, d) == Run(k, b, 0, Run(k, a, i, d).value)
    decreases |a| - i
  {
    if i == |a| {
      RunSuffix(k, a, b, 0, d);
    } else {
      RunAppend(k, a, b, i + 1, d + Change(k, a[i]));
    }
  }

  lemma NestsThree(k: Count, a: string, b: string, c: string)
    requires Nests(k, a) && Nests(k, b) && Nests(k, c)
    ensures Nests(k, a + b + c) && Nests(k, a + (b + c))
  {
    RunAppend(k, a, b, 0, 0);
    RunAppend(k, a + b, c, 0, 0);
    assert a + b + c == a + (b + c);
  }

  lemma {:induction false} RunPlain(k: Count, s: string, i: nat, d: nat)
    requires i <= |s| && forall c | c in s :: Shift(c) == 0 && (k.Silent? ==> c != '=')
    ensures Run(k, s, i, d) == Some(d)
    decreases |s| - i
  {
    if i < |s| {
      assert s[i] in s;
      RunPlain(k, s, i + 1, d);
    }
  }

  lemma {:induction false} RunDeeper(k: Count, s: string, i: nat, d: nat)
    requires i <= |s| && Run(k, s, i, d).Some?
    ensures Run(k, s, i, d + 1) == Some(Run(k, s, i, d).value + 1)
    decreases |s| - i
  {
    if i < |s| {
      RunDeeper(k, s, i + 1, d + Change(k, s[i]));
    }
  }

  /** Inside a bracket an `=` is harmless. */
  lemma {:induction false} RunInside(s: string, i: nat, d: nat)
    requires i <= |s| && Run(Both, s, i, d).Some?
    ensures Run(Silent, s, i, d + 1) == Some(Run(Both, s, i, d).value + 1)
    decreases |s| - i
  {
    if i < |s| {
      RunInside(s, i + 1, d + Change(Both, s[i]));
    }
  }

  lemma NestsWrapped(k: Count, open: char, s: string, close: char)
    requires (open == '(' && close == ')') || (open == '[' && close == ']')
    requires Nests(if k.Silent? then Both else k, s)
    ensures Nests(k, [open] + s + [close])
  {
    var inside: nat := Change(k, open);
    if k.Silent? {
      RunInside(s, 0, 0);
    } else if inside == 1 {
      RunDeeper(k, s, 0, 0);
    }
    assert Run(k, [open], 0, 0) == Some(inside);
    RunAppend(k, [open], s, 0, 0);
    RunAppend(k, [open] + s, [close], 0, 0);
    assert Run(k, [close], 0, inside) == Some(0);
  }

  // ---- each scan skips nested text --------------------------------------------------

  predicate At(e: string, i: nat, s: string) { i + |s| <= |e| && e[i..i + |s|] == s }

  lemma AtChar(e: string, i: nat, s: string, j: nat)
    requires At(e, i, s) && j < |s|
    ensures e[i + j] == s[j]
  {
    assert e[i + j] == e[i..i + |s|][j];
  }

  lemma {:induction false} WrapsSkips(e: string, i: nat, s: string, j: nat, d: nat)
    requires At(e, i, s) && i + |s| < |e| && j <= |s| && Run(Round, s, j, d).Some?
    ensures WrapsFrom(e, i + j, d + 1) == WrapsFrom(e, i + |s|, Run(Round, s, j, d).value + 1)
    decreases |s| - j
  {
    if j < |s| {
      AtChar(e, i, s, j);
      WrapsSkips(e, i, s, j + 1, d + Change(Round, s[j]));
    }
  }

  lemma {:induction false} CloseSkips(e: string, i: nat, s: string, j: nat, d: nat)
    requires At(e, i, s) && j <= |s| && Run(Square, s, j, d).Some?
    ensures CloseFrom(e, i + j, d + 1) == CloseFrom(e, i + |s|, Run(Square, s, j, d).value + 1)
    decreases |s| - j
  {
    if j < |s| {
      AtChar(e, i, s, j);
      CloseSkips(e, i, s, j + 1, d + Change(Square, s[j]));
    }
  }

  lemma {:induction false} EqualitySkips(e: string, s: string, j: nat, d: nat)
    requires |s| <= |e| && e[..|s|] == s && j <= |s| && Run(Silent, s, j, d).Some?
    requires s != [] ==> s[|s| - 1] != '!'
    ensures EqualityFrom(e, j, d) == EqualityFrom(e, |s|, Run(Silent, s, j, d).value)
    decreases |s| - j
  {
    if j < |s| {
      assert e[j] == s[j] && (j + 1 < |s| ==> e[j + 1] == s[j + 1]);
      EqualitySkips(e, s, j + 1, d + Change(Silent, s[j]));
    }
  }

  lemma NoEquality(e: string)
    requires Nests(Silent, e) && (e != [] ==> e[|e| - 1] != '!')
    ensures EqualityFrom(e, 0, 0) == None
  {
    assert e[..|e|] == e;
    EqualitySkips(e, e, 0, 0);
  }

  // ---- the shape of a spelling ----------------------------------------------------

  predicate Starts(s: string) { s != [] && !IsBlank(s[0]) && s[0] != '=' }

  predicate Stops(s: string) { s != [] && !IsBlank(s[|s| - 1]) && s[|s| - 1] != '=' && s[|s| - 1] != '!' }

  /** What the ends of a spelling look like. */
  predicate Ends(s: string) { Starts(s) && Stops(s) }

  lemma EndsAppend(a: string, b: string)
    ensures Starts(a) ==> Starts(a + b)
    ensures Stops(b) ==> Stops(a + b)
  {
  }

  lemma IdentifierIsPlain(s: string)
    requires Identifier(s) || Digits(s)
    ensures Ends(s) && forall c | c in s :: !Structural(c)
  {
    forall c | c in s ensures !Structural(c) && !IsBlank(c) {
      var k :| 0 <= k < |s| && s[k] == c;
      assert IsIdentPart(s[k]);
    }
    assert s[0] in s && s[|s| - 1] in s;
  }

  predicate IsDecimal(c: char) { IsDigit(c) || c == '.' }

  lemma NumberIsPlain(s: string)
    requires IsNumber(s)
    ensures Ends(s) && forall c | c in s :: !Structural(c)
  {
    NumberIsDecimal(s);
    assert forall c | IsDecimal(c) || c == '-' :: !Structural(c) && !IsBlank(c);
    assert s[0] in s && s[|s| - 1] in s;
  }

  lemma NumberIsDecimal(s: string)
    requires IsNumber(s)
    ensures s != [] && forall c | c in s :: IsDecimal(c) || c == '-'
  {
    var body := if s[0] == '-' then s[1..] else s;
    MantissaIsDecimal(body);
    assert s == body || s == ['-'] + body;
  }

  lemma MantissaIsDecimal(body: string)
    requires var n := Span(IsDigit, body);
             n == |body| || (body[n] == '.' && Span(IsDigit, body[n + 1..]) == |body| - n - 1)
    ensures forall c | c in body :: IsDecimal(c)
  {
    var n := Span(IsDigit, body);
    if n < |body| {
      var fraction := body[n + 1..];
      assert forall k | n < k < |body| :: body[k] == fraction[k - n - 1];
    }
    assert forall k | 0 <= k < |body| :: IsDecimal(body[k]);
  }

  lemma PlainNests(k: Count, s: string)
    requires forall c | c in s :: !Structural(c)
    ensures Nests(k, s)
  {
    RunPlain(k, s, 0, 0);
  }

  lemma PaddedNests(k: Count, before: string, s: string, after: string)
    requires Blank(before) && Blank(after) && Nests(k, s)
    ensures Nests(k, before + s + after)
  {
    PlainNests(k, before);
    PlainNests(k, after);
    NestsThree(k, before, s, after);
  }

  lemma {:induction false} PrintEnds(a: Ast)
    requires Spelled(a) || IsPath(a)
    ensures Ends(Print(a))
  {
    match a
    case Number(digits) => NumberIsPlain(digits);
    case Name(name) => IdentifierIsPlain(name);
    case Member(base, name) =>
      PrintEnds(base);
      IdentifierIsPlain(name);
      EndsAppend(Print(base), ".");
      EndsAppend(Print(base) + ".", name);
    case Item(base, before, index, after) =>
      PrintEnds(base);
      EndsAppend(Print(base), "[");
      EndsAppend(Print(base) + "[", before + Print(index) + after);
      EndsAppend(Print(base) + "[" + (before + Print(index) + after), "]");
    case Not(before, operand) =>
      PrintEnds(operand);
      EndsAppend(before, Print(operand));
      EndsAppend("!", before + Print(operand));
    case Equal(left, before, op, after, right) =>
      PrintEnds(left);
      PrintEnds(right);
      EndsAppend(Print(left), before);
      EndsAppend(Print(left) + before, Symbol(op));
      EndsAppend(after, Print(right));
      EndsAppend(Print(left) + before + Symbol(op), after + Print(right));
    case _ =>
  }

  lemma ItemNests(k: Count, base: string, before: string, index: string, after: string)
    requires Nests(k, base) && Nests(if k.Silent? then Both else k, index) && Blank(before) && Blank(after)
    ensures Nests(k, base + "[" + (before + index + after) + "]")
  {
    var content := before + index + after;
    PaddedNests(if k.Silent? then Both else k, before, index, after);
    NestsWrapped(k, '[', content, ']');
    NestsThree(k, base, ['['] + content + [']'], []);
    assert base + "[" + content + "]" == base + (['['] + content + [']'] + []);
  }

  lemma EqualNests(k: Count, left: string, before: string, op: Equality, after: string, right: string)
    requires !k.Silent? && Nests(k, left) && Nests(k, right) && Blank(before) && Blank(after)
    ensures Nests(k, left + before + Symbol(op) + (after + right))
  {
    PlainNests(k, before);
    PlainNests(k, after);
    RunPlain(k, Symbol(op), 0, 0);
    NestsThree(k, left, before, Symbol(op));
    NestsThree(k, left + before + Symbol(op), after, right);
  }

  /** Spellings nest; only a bare equality has an `=` outside every bracket. */
  lemma {:induction false} PrintNests(k: Count, a: Ast)
    requires Spelled(a) || IsPath(a)
    requires k.Silent? ==> !a.Equal?
    ensures Nests(k, Print(a))
    decreases a
  {
    match a
    case Member(base, name) =>
      assert IsPath(a) && IsPath(base);
      PrintNests(k, base);
      IdentifierIsPlain(name);
      PlainNests(k, ".");
      PlainNests(k, name);
      NestsThree(k, Print(base), ".", name);
    case Item(base, before, index, after) =>
      assert IsPath(a) && IsPath(base);
      PrintNests(k, base);
      PrintNests(if k.Silent? then Both else k, index);
      ItemNests(k, Print(base), before, Print(index), after);
    case Not(before, operand) =>
      PrintNests(k, operand);
      PlainNests(k, before);
      RunPlain(k, "!", 0, 0);
      NestsThree(k, "!", before, Print(operand));
    case Equal(left, before, op, after, right) =>
      PrintNests(k, left);
      PrintNests(k, right);
      EqualNests(k, Print(left), before, op, after, Print(right));
    case Parens(before, inner, after) =>
      PrintNests(if k.Silent? then Both else k, inner);
      PaddedNests(if k.Silent? then Both else k, before, Print(inner), after);
      NestsWrapped(k, '(', before + Print(inner) + after, ')');
    case _ => AtomNests(k, a);
  }

  predicate IsAtom(a: Ast) {
    a.True? || a.False? || a.Null? || a.Undefined? || a.Number? || a.Quoted? || a.Name?
  }

  lemma AtomNests(k: Count, a: Ast)
    requires IsAtom(a) && (Spelled(a) || IsPath(a))
    ensures Nests(k, Print(a))
  {
    match a
    case Number(digits) => NumberIsPlain(digits); PlainNests(k, digits);
    case Name(name) => IdentifierIsPlain(name); PlainNests(k, name);
    case _ => PlainNests(k, Print(a));
  }
}
