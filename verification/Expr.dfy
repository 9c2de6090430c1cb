/** The template expression evaluator of the org page: it works on the text of an
    expression, splitting strings as it goes. The JavaScript values and the
    operations on them are parameters. */
module Expr {
  import opened Basics
  import opened Text

  /** What the evaluator needs of JavaScript. `get` is property access, yielding
      `undefined` on null and undefined receivers. */
  datatype Host<!V> = Host(
    missing: V,
    nil: V,
    truth: bool -> V,
    number: string -> V,
    text: string -> V,
    truthy: V -> bool,
    strict: (V, V) -> bool,
    loose: (V, V) -> bool,
    get: (V, V) -> V)

  /** What `String.prototype.trim` removes. */
  predicate IsBlank(c: char) {
    || '\t' <= c <= '\r'
    || c == ' ' || c == '\U{00A0}' || c == '\U{1680}' || '\U{2000}' <= c <= '\U{200A}'
    || c == '\U{2028}' || c == '\U{2029}' || c == '\U{202F}' || c == '\U{205F}' || c == '\U{3000}'
    || c == '\U{FEFF}'
  }

  predicate IsDigit(c: char) { '0' <= c <= '9' }

  predicate IsIdentStart(c: char) {
    'A' <= c <= 'Z' || 'a' <= c <= 'z' || c == '_' || c == '$'
  }

  predicate IsIdentPart(c: char) { IsIdentStart(c) || IsDigit(c) }

  /** How many leading characters satisfy `p`. */
  function Span(p: char -> bool, s: string): (n: nat)
    ensures n <= |s|
    ensures forall k | 0 <= k < n :: p(s[k])
    ensures n < |s| ==> !p(s[n])
  {
    Leading(p, s, 0)
  }

  /** Where an identifier that starts at position i ends; i if there is none. */
  function IdentEnd(e: string, i: nat): (n: nat)
    requires i <= |e|
    ensures i <= n <= |e|
  {
    if i == |e| || !IsIdentStart(e[i]) then i else Leading(IsIdentPart, e, i)
  }

  /** Where a member name that starts at position i ends: an identifier, or
      failing that digits. */
  function NameEnd(e: string, i: nat): (n: nat)
    requires i <= |e|
    ensures i <= n <= |e|
  {
    if IdentEnd(e, i) > i then IdentEnd(e, i) else Leading(IsDigit, e, i)
  }

  /** The number pattern: a sign, digits, and perhaps a point and more digits. */
  predicate IsNumber(s: string) {
    var body := if s != [] && s[0] == '-' then s[1..] else s;
    var n := Span(IsDigit, body);
    n > 0 && (n == |body| || (body[n] == '.' && n + 1 < |body| && Span(IsDigit, body[n + 1..]) == |body| - n - 1))
  }

  // ---- the scans ---------------------------------------------------------------

  /** `parensWrapWhole`, from position i at depth `depth`. */
  function WrapsFrom(e: string, i: nat, depth: int): bool
    decreases |e| - i
  {
    if i >= |e| - 1 then true
    else if e[i] == '(' then WrapsFrom(e, i + 1, depth + 1)
    else if e[i] == ')' then depth - 1 != 0 && WrapsFrom(e, i + 1, depth - 1)
    else WrapsFrom(e, i + 1, depth)
  }

  method ParensWrapWhole(e: string) returns (r: bool)
    ensures r == WrapsFrom(e, 0, 0)
  {
    var depth := 0;
    var i := 0;
    while i < |e| - 1
      invariant 0 <= i && WrapsFrom(e, i, depth) == WrapsFrom(e, 0, 0)
    {
      if e[i] == '(' {
        depth := depth + 1;
      } else if e[i] == ')' {
        depth := depth - 1;
        if depth == 0 {
          return false;
        }
      }
      i := i + 1;
    }
    return true;
  }

  datatype Found = Found(index: nat, op: string)

  predicate IsEqualitySign(c: char) { c == '=' || c == '!' }

  predicate OperatorAt(e: string, i: nat)
    requires i < |e|
  {
    && IsEqualitySign(e[i]) && i + 1 < |e| && e[i + 1] == '='
    && !(i > 0 && IsEqualitySign(e[i - 1]))
    && Trim(IsBlank, e[..i]) != []
  }

  function OperatorText(e: string, i: nat): (op: string)
    requires i + 1 < |e| && e[i + 1] == '='
    ensures |op| >= 2 && i + |op| <= |e|
  {
    if i + 2 < |e| && e[i + 2] == '=' then [e[i]] + "==" else [e[i]] + "="
  }

  function Shift(c: char): int {
    if c == '[' || c == '(' then 1 else if c == ']' || c == ')' then -1 else 0
  }

  /** `findTopLevelEquality`, from position i at depth `depth`. */
  function EqualityFrom(e: string, i: nat, depth: int): (r: Option<Found>)
    requires i <= |e|
    ensures r.Some? ==> |r.value.op| >= 2 && r.value.index + |r.value.op| <= |e|
    decreases |e| - i
  {
    if i == |e| then None
    else if Shift(e[i]) != 0 then EqualityFrom(e, i + 1, depth + Shift(e[i]))
    else if depth == 0 && OperatorAt(e, i) then Some(Found(i, OperatorText(e, i)))
    else EqualityFrom(e, i + 1, depth)
  }

  method FindTopLevelEquality(e: string) returns (r: Option<Found>)
    ensures r == EqualityFrom(e, 0, 0)
  {
    var depth := 0;
    for i := 0 to |e|
      invariant EqualityFrom(e, i, depth) == EqualityFrom(e, 0, 0)
    {
      var c := e[i];
      if c == '[' || c == '(' {
        depth := depth + 1;
      } else if c == ']' || c == ')' {
        depth := depth - 1;
      } else if depth == 0 && (c == '=' || c == '!') && i + 1 < |e| && e[i + 1] == '=' {
        if i > 0 && (e[i - 1] == '=' || e[i - 1] == '!') {
          continue;
        }
        if Trim(IsBlank, e[..i]) == [] {
          continue;
        }
        return Some(Found(i, OperatorText(e, i)));
      }
    }
    return None;
  }

  /** The bracket closing the one before position j, scanning at depth `depth`. */
  function CloseFrom(e: string, j: nat, depth: nat): (r: Option<nat>)
    requires j <= |e| && depth > 0
    ensures r.Some? ==> j <= r.value < |e|
    decreases |e| - j
  {
    if j == |e| then None
    else if e[j] == '[' then CloseFrom(e, j + 1, depth + 1)
    else if e[j] == ']' then if depth == 1 then Some(j) else CloseFrom(e, j + 1, depth - 1)
    else CloseFrom(e, j + 1, depth)
  }

  // ---- evaluation of text --------------------------------------------------------

  function Compare<V>(h: Host<V>, op: string, l: V, r: V): V {
    if op == "===" then h.truth(h.strict(l, r))
    else if op == "!==" then h.truth(!h.strict(l, r))
    else if op == "==" then h.truth(h.loose(l, r))
    else h.truth(!h.loose(l, r))
  }

  /** The keyword, number and string literals. */
  function Constant<V>(h: Host<V>, e: string): Option<V> {
    if e == "true" then Some(h.truth(true))
    else if e == "false" then Some(h.truth(false))
    else if e == "null" then Some(h.nil)
    else if e == "undefined" then Some(h.missing)
    else if IsNumber(e) then Some(h.number(e))
    else if |e| >= 2 && (e[0] == '"' || e[0] == '\'') && e[|e| - 1] == e[0] then Some(h.text(e[1..|e| - 1]))
    else None
  }

  /** `resolve`. Every recursive call is on a strictly shorter text, so evaluation
      ends on every input. */
  function Resolve<V>(h: Host<V>, vals: V, src: string): V
    decreases |src|, 5
  {
    ResolveTrimmed(h, vals, Trim(IsBlank, src))
  }

  function ResolveTrimmed<V>(h: Host<V>, vals: V, e: string): V
    decreases |e|, 4
  {
    if e == [] then h.missing
    else if Wrapped(e) then Resolve(h, vals, e[1..|e| - 1])
    else ResolveOpen(h, vals, e)
  }

  predicate Wrapped(e: string)
    requires e != []
  {
    e[0] == '(' && e[|e| - 1] == ')' && WrapsFrom(e, 0, 0)
  }

  function ResolveOpen<V>(h: Host<V>, vals: V, e: string): V
    requires e != []
    decreases |e|, 3
  {
    var eq := EqualityFrom(e, 0, 0);
    if eq.Some? then
      var i, op := eq.value.index, eq.value.op;
      Compare(h, op, Resolve(h, vals, e[..i]), Resolve(h, vals, e[i + |op|..]))
    else ResolveOperand(h, vals, e)
  }

  function ResolveOperand<V>(h: Host<V>, vals: V, e: string): V
    requires e != []
    decreases |e|, 2
  {
    if e[0] == '!' then h.truth(!h.truthy(Resolve(h, vals, e[1..])))
    else if Constant(h, e).Some? then Constant(h, e).value
    else ResolvePath(h, vals, e)
  }

  /** `resolvePath`. */
  function ResolvePath<V>(h: Host<V>, vals: V, e: string): V
    decreases |e|, 1
  {
    var n := IdentEnd(e, 0);
    if n == 0 then h.missing else PathFrom(h, vals, e, h.get(vals, h.text(e[..n])), n)
  }

  function PathFrom<V>(h: Host<V>, vals: V, e: string, cur: V, i: nat): V
    requires i <= |e|
    decreases |e|, 0, |e| - i
  {
    if i == |e| then cur
    else if e[i] == '.' then
      var n := NameEnd(e, i + 1);
      if n == i + 1 then h.missing else PathFrom(h, vals, e, h.get(cur, h.text(e[i + 1..n])), n)
    else if e[i] == '[' then
      var close := CloseFrom(e, i + 1, 1);
      if close.None? then h.missing
      else PathFrom(h, vals, e, h.get(cur, Resolve(h, vals, e[i + 1..close.value])), close.value + 1)
    else h.missing
  }

  // One unfolding each, for the proofs below.

  lemma IsOperand<V>(h: Host<V>, vals: V, e: string)
    requires e != [] && !Wrapped(e) && EqualityFrom(e, 0, 0).None?
    ensures ResolveTrimmed(h, vals, e) == ResolveOperand(h, vals, e)
  {
  }

  lemma IsComparison<V>(h: Host<V>, vals: V, e: string, i: nat, op: string)
    requires e != [] && !Wrapped(e) && EqualityFrom(e, 0, 0) == Some(Found(i, op))
    ensures ResolveTrimmed(h, vals, e) == Compare(h, op, Resolve(h, vals, e[..i]), Resolve(h, vals, e[i + |op|..]))
  {
    IsOpen(h, vals, e);
    OpenCompares(h, vals, e, i, op);
  }

  lemma IsOpen<V>(h: Host<V>, vals: V, e: string)
    requires e != [] && !Wrapped(e)
    ensures ResolveTrimmed(h, vals, e) == ResolveOpen(h, vals, e)
  {
  }

  lemma OpenCompares<V>(h: Host<V>, vals: V, e: string, i: nat, op: string)
    requires e != [] && EqualityFrom(e, 0, 0) == Some(Found(i, op))
    ensures ResolveOpen(h, vals, e) == Compare(h, op, Resolve(h, vals, e[..i]), Resolve(h, vals, e[i + |op|..]))
  {
  }

  lemma AfterMember<V>(h: Host<V>, vals: V, e: string, cur: V, i: nat, n: nat)
    requires i < |e| && e[i] == '.' && n == NameEnd(e, i + 1) > i + 1
    ensures PathFrom(h, vals, e, cur, i) == PathFrom(h, vals, e, h.get(cur, h.text(e[i + 1..n])), n)
  {
  }

  lemma AfterItem<V>(h: Host<V>, vals: V, e: string, cur: V, i: nat, j: nat)
    requires i < j < |e| && e[i] == '[' && CloseFrom(e, i + 1, 1) == Some(j)
    ensures PathFrom(h, vals, e, cur, i) == PathFrom(h, vals, e, h.get(cur, Resolve(h, vals, e[i + 1..j])), j + 1)
  {
  }

  // ---- the same evaluation as written: scans and loops ----------------------------

  method Evaluate<V>(h: Host<V>, vals: V, src: string) returns (v: V)
    ensures v == Resolve(h, vals, src)
    decreases |src|, 5
  {
    var e := Trim(IsBlank, src);
    if e == [] {
      return h.missing;
    }
    var whole := ParensWrapWhole(e);
    if e[0] == '(' && e[|e| - 1] == ')' && whole {
      v := Evaluate(h, vals, e[1..|e| - 1]);
    } else {
      v := EvaluateOpen(h, vals, e);
    }
  }

  /** The rest of `resolve`, once parentheses around the whole are gone. */
  method EvaluateOpen<V>(h: Host<V>, vals: V, e: string) returns (v: V)
    requires e != []
    ensures v == ResolveOpen(h, vals, e)
    decreases |e|, 3
  {
    var eq := FindTopLevelEquality(e);
    if eq.Some? {
      v := EvaluateSides(h, vals, e, eq.value.index, eq.value.op);
    } else {
      v := EvaluateOperand(h, vals, e);
    }
  }

  /** Both sides of an operator found at position i. */
  method EvaluateSides<V>(h: Host<V>, vals: V, e: string, i: nat, op: string) returns (v: V)
    requires 0 < |op| && i + |op| <= |e|
    ensures v == Compare(h, op, Resolve(h, vals, e[..i]), Resolve(h, vals, e[i + |op|..]))
    decreases |e|, 2
  {
    var l := Evaluate(h, vals, e[..i]);
    var r := Evaluate(h, vals, e[i + |op|..]);
    v := Compare(h, op, l, r);
  }

  method EvaluateOperand<V>(h: Host<V>, vals: V, e: string) returns (v: V)
    requires e != []
    ensures v == ResolveOperand(h, vals, e)
    decreases |e|, 2
  {
    if e[0] == '!' {
      var inner := Evaluate(h, vals, e[1..]);
      return h.truth(!h.truthy(inner));
    }
    var constant := Constant(h, e);
    if constant.Some? {
      return constant.value;
    }
    v := EvaluatePath(h, vals, e);
  }

  /** The inner loop of `resolvePath`. */
  method CloseBracket(e: string, start: nat) returns (r: Option<nat>)
    requires start <= |e|
    ensures r == CloseFrom(e, start, 1)
  {
    var depth := 1;
    var j := start;
    while j < |e| && depth > 0
      invariant start <= j <= |e| && depth > 0
      invariant CloseFrom(e, j, depth) == CloseFrom(e, start, 1)
      decreases |e| - j
    {
      if e[j] == '[' {
        depth := depth + 1;
      } else if e[j] == ']' {
        depth := depth - 1;
        if depth == 0 {
          break;
        }
      }
      j := j + 1;
    }
    return if depth != 0 then None else Some(j);
  }

  method EvaluatePath<V>(h: Host<V>, vals: V, e: string) returns (v: V)
    ensures v == ResolvePath(h, vals, e)
    decreases |e|, 1
  {
    var head := IdentEnd(e, 0);
    if head == 0 {
      return h.missing;
    }
    v := FollowSteps(h, vals, e, h.get(vals, h.text(e[..head])), head);
  }

  /** The loop of `resolvePath`, from a value and a position. */
  method FollowSteps<V>(h: Host<V>, vals: V, e: string, start: V, from: nat) returns (cur: V)
    requires 0 < from <= |e|
    ensures cur == PathFrom(h, vals, e, start, from)
    decreases |e|, 0, 2
  {
    cur := start;
    var i := from;
    ghost var whole := PathFrom(h, vals, e, start, from);
    while i < |e|
      invariant 0 < i <= |e| && PathFrom(h, vals, e, cur, i) == whole
      decreases |e| - i
    {
      var next := FollowStep(h, vals, e, cur, i);
      if next.None? {
        return h.missing;
      }
      cur, i := next.value.0, next.value.1;
    }
  }

  /** One round of that loop: the value and the position after a member or a
      subscript; None when the path ends in something else. */
  method FollowStep<V>(h: Host<V>, vals: V, e: string, cur: V, i: nat) returns (next: Option<(V, nat)>)
    requires 0 < i < |e|
    ensures next.None? ==> PathFrom(h, vals, e, cur, i) == h.missing
    ensures next.Some? ==> i < next.value.1 <= |e|
                           && PathFrom(h, vals, e, cur, i) == PathFrom(h, vals, e, next.value.0, next.value.1)
    decreases |e|, 0, 1
  {
    if e[i] == '.' {
      var n := NameEnd(e, i + 1);
      if n == i + 1 {
        return None;
      }
      AfterMember(h, vals, e, cur, i, n);
      return Some((h.get(cur, h.text(e[i + 1..n])), n));
    } else if e[i] == '[' {
      next := FollowItem(h, vals, e, cur, i);
    } else {
      return None;
    }
  }

  method FollowItem<V>(h: Host<V>, vals: V, e: string, cur: V, i: nat) returns (next: Option<(V, nat)>)
    requires 0 < i < |e| && e[i] == '['
    ensures next.None? ==> PathFrom(h, vals, e, cur, i) == h.missing
    ensures next.Some? ==> i < next.value.1 <= |e|
                           && PathFrom(h, vals, e, cur, i) == PathFrom(h, vals, e, next.value.0, next.value.1)
    decreases |e|, 0, 0
  {
    var close := CloseBracket(e, i + 1);
    if close.None? {
      return None;
    }
    var j := close.value;
    AfterItem(h, vals, e, cur, i, j);
    var key := Evaluate(h, vals, e[i + 1..j]);
    return Some((h.get(cur, key), j + 1));
  }
}
