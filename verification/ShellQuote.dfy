/** Shell quoting of command lines, against token recognition and quote removal of
    the POSIX shell (POSIX.1-2017, XCU sections 2.2 and 2.3). */
module ShellQuote {
  import opened Basics
  import opened Text

  const NUL: char := '\U{0000}'

  // ---- the quoting ------------------------------------------------------------------

  predicate IsSafe(c: char) {
    'a' <= c <= 'z' || 'A' <= c <= 'Z' || '0' <= c <= '9' || c in "_-./:@%+=,"
  }

  predicate AllSafe(s: string) { forall c | c in s :: IsSafe(c) }

  /** Each single quote replaced by one in double quotes, between single quotes. */
  function Escape(s: string): string {
    if s == [] then [] else (if s[0] == '\'' then "'\"'\"'" else [s[0]]) + Escape(s[1..])
  }

  function Quoted(s: string): string {
    if s == "" then "''" else if AllSafe(s) then s else "'" + Escape(s) + "'"
  }

  method ShellArg(value: string) returns (r: string)
    ensures r == Quoted(value)
  {
    if value == "" {
      return "''";
    }
    for k := 0 to |value|
      invariant forall j | 0 <= j < k :: IsSafe(value[j])
    {
      if !IsSafe(value[k]) {
        return "'" + Escape(value) + "'";
      }
    }
    return value;
  }

  function Line(args: seq<string>): string {
    if args == [] then "" else if |args| == 1 then Quoted(args[0]) else Quoted(args[0]) + " " + Line(args[1..])
  }

  method ShellArgs(args: seq<string>) returns (line: string)
    ensures line == Line(args)
  {
    var quoted := [];
    for k := 0 to |args|
      invariant |quoted| == k && forall j | 0 <= j < k :: quoted[j] == Quoted(args[j])
    {
      var q := ShellArg(args[k]);
      quoted := quoted + [q];
    }
    JoinIsLine(quoted, args);
    line := Join(quoted, ' ');
  }

  lemma {:induction false} JoinIsLine(quoted: seq<string>, args: seq<string>)
    requires |quoted| == |args| && forall j | 0 <= j < |args| :: quoted[j] == Quoted(args[j])
    ensures Join(quoted, ' ') == Line(args)
    decreases |args|
  {
    if |args| > 1 {
      JoinIsLine(quoted[1..], args[1..]);
    }
  }

  // ---- the shell ----------------------------------------------------------------------

  predicate IsBlank(c: char) { c == ' ' || c == '\t' }

  /** Characters that, unquoted, end a word or start an operator, an expansion, a
      pattern, a comment or an escape. */
  predicate IsSpecial(c: char) { c in "|&;<>()$`\\\n*?[]#~!{}" || c == NUL }

  /** What a double-quoted text may hold without an expansion or an escape. */
  predicate IsPlain(body: string) { forall c | c in body :: c != '$' && c != '`' && c != '\\' && c != NUL }

  function Plus(word: Option<string>, s: string): Option<string> {
    Some(if word.Some? then word.value + s else s)
  }

  function Prepend(word: Option<string>, words: Option<seq<string>>): Option<seq<string>> {
    if words.None? || word.None? then words else Some([word.value] + words.value)
  }

  /** The words of a command line after quote removal, given the word begun so far;
      None when the line holds anything but blanks, words and quotes. */
  function Words(s: string, word: Option<string>): Option<seq<string>>
    decreases |s|
  {
    if s == "" then Prepend(word, Some([]))
    else if IsBlank(s[0]) then Prepend(word, Words(s[1..], None))
    else if s[0] == '\'' || s[0] == '"' then
      var close := IndexOf(s[1..], s[0]);
      var body := s[1..][..close];
      if close == |s| - 1 || NUL in body || (s[0] == '"' && !IsPlain(body)) then None
      else Words(s[1..][close + 1..], Plus(word, body))
    else if IsSpecial(s[0]) then None
    else Words(s[1..], Plus(word, [s[0]]))
  }

  // ---- the round trip -------------------------------------------------------------------

  lemma ReadsQuoted(quote: char, body: string, rest: string, word: Option<string>)
    requires quote == '\'' || quote == '"'
    requires quote !in body && NUL !in body && (quote == '"' ==> IsPlain(body))
    ensures Words([quote] + body + [quote] + rest, word) == Words(rest, Plus(word, body))
  {
    var s := [quote] + body + [quote] + rest;
    var tail := body + [quote] + rest;
    assert s[1..] == tail;
    IndexOfIs(body, quote, rest);
    assert tail[..|body|] == body && tail[|body| + 1..] == rest;
  }

  lemma SafeIsOrdinary(c: char)
    requires IsSafe(c)
    ensures !IsBlank(c) && c != '\'' && c != '"' && !IsSpecial(c)
  {
  }

  lemma ReadsChar(c: char, rest: string, word: Option<string>)
    requires IsSafe(c)
    ensures Words([c] + rest, word) == Words(rest, Plus(word, [c]))
  {
    SafeIsOrdinary(c);
    assert ([c] + rest)[1..] == rest;
  }

  lemma PlusPlus(word: Option<string>, a: string, b: string)
    ensures Plus(Plus(word, a), b) == Plus(word, a + b)
  {
    if word.Some? {
      assert word.value + a + b == word.value + (a + b);
    }
  }

  lemma {:induction false} ReadsSafe(s: string, rest: string, word: Option<string>)
    requires AllSafe(s) && s != ""
    ensures Words(s + rest, word) == Words(rest, Plus(word, s))
    decreases |s|
  {
    var c, tail := s[0], s[1..];
    assert s == [c] + tail;
    assert s + rest == [c] + (tail + rest);
    ReadsChar(c, tail + rest, word);
    if tail == "" {
      assert tail + rest == rest;
    } else {
      PlusPlus(word, [c], tail);
      ReadsSafe(tail, rest, Plus(word, [c]));
    }
  }

  lemma {:induction false} EscapeSplits(a: string, b: string)
    requires '\'' !in a
    ensures Escape(a + b) == a + Escape(b)
    decreases |a|
  {
    if a == [] {
      assert a + b == b;
    } else {
      assert (a + b)[1..] == a[1..] + b;
      EscapeSplits(a[1..], b);
    }
  }

  lemma ReadsQuote(rest: string, word: Option<string>)
    ensures Words("\"'\"" + rest, word) == Words(rest, Plus(word, "'"))
  {
    ReadsQuoted('"', "'", rest, word);
    assert ['"'] + "'" + ['"'] == "\"'\"";
  }

  const QUOTE := "'\"'\"'"

  lemma EscapeQuote(a: string, b: string)
    requires '\'' !in a
    ensures Escape(a + ['\''] + b) == a + QUOTE + Escape(b)
  {
    assert a + ['\''] + b == a + (['\''] + b);
    assert (['\''] + b)[1..] == b;
    EscapeSplits(a, ['\''] + b);
  }

  lemma Regroup(a: string, e: string, rest: string)
    ensures "'" + (a + QUOTE + e) + "'" + rest == ['\''] + a + ['\''] + ("\"'\"" + ("'" + e + "'" + rest))
  {
  }

  lemma {:induction false} ReadsEscaped(s: string, rest: string, word: Option<string>)
    requires NUL !in s
    ensures Words("'" + Escape(s) + "'" + rest, word) == Words(rest, Plus(word, s))
    decreases |s|
  {
    var i := IndexOf(s, '\'');
    if i == |s| {
      assert s + [] == s;
      EscapeSplits(s, []);
      ReadsQuoted('\'', s, rest, word);
    } else {
      var a, b := s[..i], s[i + 1..];
      assert s == a + ['\''] + b;
      ReadsSplit(a, b, rest, word);
      ReadsEscaped(b, rest, Plus(Plus(word, a), "'"));
      PlusPlus(word, a, "'");
      PlusPlus(word, a + "'", b);
    }
  }

  /** Reading up to and past the first quote in an argument. */
  lemma ReadsSplit(a: string, b: string, rest: string, word: Option<string>)
    requires '\'' !in a && NUL !in a
    ensures Words("'" + Escape(a + ['\''] + b) + "'" + rest, word)
         == Words("'" + Escape(b) + "'" + rest, Plus(Plus(word, a), "'"))
  {
    var after := "'" + Escape(b) + "'" + rest;
    EscapeQuote(a, b);
    Regroup(a, Escape(b), rest);
    ReadsQuoted('\'', a, "\"'\"" + after, word);
    ReadsQuote(after, Plus(word, a));
  }

  /** A quoted argument reads as one word part, whatever the argument. */
  lemma ReadsArg(arg: string, rest: string)
    requires NUL !in arg
    ensures Words(Quoted(arg) + rest, None) == Words(rest, Some(arg))
  {
    assert Plus(None, arg) == Some(arg);
    if arg == "" {
      assert "''" + rest == ['\''] + [] + ['\''] + rest;
      ReadsQuoted('\'', [], rest, None);
    } else if AllSafe(arg) {
      ReadsSafe(arg, rest, None);
    } else {
      ReadsEscaped(arg, rest, None);
    }
  }

  /** Reading the quoted line gives back exactly the arguments. */
  lemma {:induction false} RoundTrip(args: seq<string>)
    requires forall a | a in args :: NUL !in a
    ensures Words(Line(args), None) == Some(args)
    decreases |args|
  {
    if args == [] {
      assert Words("", None) == Some([]);
    } else if |args| == 1 {
      ReadsArg(args[0], "");
      assert Quoted(args[0]) + "" == Quoted(args[0]);
      assert args == [args[0]] + [];
    } else {
      var rest := " " + Line(args[1..]);
      ReadsArg(args[0], rest);
      assert Line(args) == Quoted(args[0]) + rest;
      assert rest[1..] == Line(args[1..]);
      RoundTrip(args[1..]);
      assert args == [args[0]] + args[1..];
    }
  }

  lemma {:induction false} NulIsRefused(s: string, word: Option<string>)
    requires NUL in s
    ensures Words(s, word) == None
    decreases |s|
  {
    assert s == [s[0]] + s[1..];
    if IsBlank(s[0]) {
      NulIsRefused(s[1..], None);
    } else if s[0] == '\'' || s[0] == '"' {
      var close := IndexOf(s[1..], s[0]);
      if close < |s| - 1 && NUL !in s[1..][..close] {
        var rest := s[1..][close + 1..];
        assert s[1..] == s[1..][..close] + [s[0]] + rest;
        NulIsRefused(rest, Plus(word, s[1..][..close]));
      }
    } else if !IsSpecial(s[0]) {
      NulIsRefused(s[1..], Plus(word, [s[0]]));
    }
  }

  lemma {:induction false} EscapeKeeps(s: string, c: char)
    requires c in s
    ensures c in Escape(s)
    decreases |s|
  {
    if s[0] != c {
      assert c in s[1..];
      EscapeKeeps(s[1..], c);
    }
  }

  lemma {:induction false} LineKeeps(args: seq<string>, arg: string)
    requires arg in args && NUL in arg
    ensures NUL in Line(args)
    decreases |args|
  {
    if args[0] == arg {
      EscapeKeeps(arg, NUL);
    } else {
      LineKeeps(args[1..], arg);
    }
  }

  /** The quoted line reads back as the arguments exactly when none contains NUL. */
  lemma RoundTripIff(args: seq<string>)
    ensures Words(Line(args), None) == Some(args) <==> forall a | a in args :: NUL !in a
  {
    if forall a | a in args :: NUL !in a {
      RoundTrip(args);
    } else {
      var arg :| arg in args && NUL in arg;
      LineKeeps(args, arg);
      NulIsRefused(Line(args), None);
    }
  }

  lemma {:induction false} EscapeGrows(s: string)
    ensures |Escape(s)| >= |s|
    decreases |s|
  {
    if s != "" {
      EscapeGrows(s[1..]);
    }
  }

  /** An argument is printed bare exactly when it is not empty and holds nothing but
      letters, digits and these ten signs. */
  lemma BareIff(s: string)
    ensures Quoted(s) == s
       <==> s != "" && forall c | c in s ::
              'a' <= c <= 'z' || 'A' <= c <= 'Z' || '0' <= c <= '9' || c == '_' || c == '-' || c == '.' || c == '/'
              || c == ':' || c == '@' || c == '%' || c == '+' || c == '=' || c == ','
  {
    EscapeGrows(s);
    if s != "" && !AllSafe(s) {
      assert |Quoted(s)| > |s|;
    }
  }
}
