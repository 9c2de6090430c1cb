/** The string operations of Go's `strings` package that the modelled code
    relies on, over sequences of Unicode scalar values. */
module Text {

  /** `unicode.IsSpace`. */
  predicate IsSpace(c: char) {
    || '\t' <= c <= '\r'
    || c == ' '
    || c == '\U{0085}' || c == '\U{00A0}' || c == '\U{1680}'
    || '\U{2000}' <= c <= '\U{200A}'
    || c == '\U{2028}' || c == '\U{2029}' || c == '\U{202F}'
    || c == '\U{205F}' || c == '\U{3000}'
  }

  predicate IsNewline(c: char) { c == '\n' }

  // Trimming, for any notion of blank character.

  /** Where the blanks that start at position i end. */
  function Leading(blank: char -> bool, s: string, i: nat): (n: nat)
    requires i <= |s|
    ensures i <= n <= |s|
    ensures forall k | i <= k < n :: blank(s[k])
    ensures n < |s| ==> !blank(s[n])
    decreases |s| - i
  {
    if i == |s| || !blank(s[i]) then i else Leading(blank, s, i + 1)
  }

  /** Where the blanks that end before position i start. */
  function Trailing(blank: char -> bool, s: string, i: nat): (n: nat)
    requires i <= |s|
    ensures n <= i
    ensures forall k | n <= k < i :: blank(s[k])
    ensures n > 0 ==> !blank(s[n - 1])
    decreases i
  {
    if i == 0 || !blank(s[i - 1]) then i else Trailing(blank, s, i - 1)
  }

  function TrimLeft(blank: char -> bool, s: string): (r: string)
    ensures |r| <= |s|
    ensures r != [] ==> !blank(r[0])
  {
    s[Leading(blank, s, 0)..]
  }

  function TrimRight(blank: char -> bool, s: string): (r: string)
    ensures r <= s
    ensures r != [] ==> !blank(r[|r| - 1])
  {
    s[..Trailing(blank, s, |s|)]
  }

  function Trim(blank: char -> bool, s: string): (r: string)
    ensures |r| <= |s|
    ensures Trimmed(blank, r)
  {
    TrimRight(blank, TrimLeft(blank, s))
  }

  /** `strings.TrimSpace`. */
  function TrimSpace(s: string): string {
    Trim(IsSpace, s)
  }

  predicate Trimmed(blank: char -> bool, s: string) {
    s == [] || (!blank(s[0]) && !blank(s[|s| - 1]))
  }

  predicate AllBlank(blank: char -> bool, s: string) {
    forall c | c in s :: blank(c)
  }

  lemma TrimRightStops(blank: char -> bool, s: string, w: string)
    requires (s == [] || !blank(s[|s| - 1])) && AllBlank(blank, w)
    ensures TrimRight(blank, s + w) == s
  {
    var t := s + w;
    assert forall k | |s| <= k < |t| :: t[k] == w[k - |s|];
    assert s != [] ==> t[|s| - 1] == s[|s| - 1];
    assert t[..|s|] == s;
  }

  lemma TrimLeftStops(blank: char -> bool, w: string, s: string)
    requires AllBlank(blank, w) && (s == [] || !blank(s[0]))
    ensures TrimLeft(blank, w + s) == s
  {
    var t := w + s;
    assert forall k | 0 <= k < |w| :: t[k] == w[k];
    assert s != [] ==> t[|w|] == s[0];
    assert t[|w|..] == s;
  }

  /** Blank padding on either side of a trimmed text is removed exactly. */
  lemma TrimPadded(blank: char -> bool, w: string, s: string, v: string)
    requires AllBlank(blank, w) && AllBlank(blank, v) && Trimmed(blank, s)
    ensures Trim(blank, w + s + v) == s
  {
    assert w + s + v == w + (s + v);
    if s == [] {
      assert w + s + v == (w + v) + [];
      TrimLeftStops(blank, w + v, []);
    } else {
      TrimLeftStops(blank, w, s + v);
      TrimRightStops(blank, s, v);
    }
  }

  lemma TrimTrimmed(blank: char -> bool, s: string)
    requires Trimmed(blank, s)
    ensures Trim(blank, s) == s
  {
  }

  /** A text is blank padding around its trimmed core. */
  lemma TrimSplits(blank: char -> bool, s: string) returns (w: string, v: string)
    ensures AllBlank(blank, w) && AllBlank(blank, v) && s == w + Trim(blank, s) + v
  {
    var core := TrimLeft(blank, s);
    w := s[..|s| - |core|];
    v := core[|TrimRight(blank, core)|..];
    assert s == w + core && core == TrimRight(blank, core) + v;
  }

  lemma TrimIsEmptyIff(blank: char -> bool, s: string)
    ensures Trim(blank, s) == [] <==> AllBlank(blank, s)
  {
    var w, v := TrimSplits(blank, s);
    if AllBlank(blank, s) {
      TrimPadded(blank, s, [], []);
      assert s + [] + [] == s;
    }
  }

  /** `strings.IndexByte`, with the length standing for "not found". */
  function IndexOf(s: string, c: char): (i: nat)
    ensures i <= |s|
    ensures i < |s| ==> s[i] == c
    ensures c !in s[..i]
    ensures i == |s| <==> c !in s
  {
    IndexFrom(s, c, 0)
  }

  function IndexFrom(s: string, c: char, start: nat): (i: nat)
    requires start <= |s|
    ensures start <= i <= |s|
    ensures i < |s| ==> s[i] == c
    ensures forall k | start <= k < i :: s[k] != c
    decreases |s| - start
  {
    if start == |s| || s[start] == c then start else IndexFrom(s, c, start + 1)
  }

  lemma IndexOfIs(a: string, c: char, b: string)
    requires c !in a
    ensures IndexOf(a + [c] + b, c) == |a|
  {
    var s := a + [c] + b;
    assert s[|a|] == c;
  }

  /** `strings.Split` at a one-character separator. */
  function Split(s: string, sep: char): (parts: seq<string>)
    ensures parts != []
    ensures forall p | p in parts :: sep !in p
    decreases |s|
  {
    var i := IndexOf(s, sep);
    if i == |s| then [s] else [s[..i]] + Split(s[i + 1..], sep)
  }

  /** `strings.Join` with a one-character separator. */
  function Join(parts: seq<string>, sep: char): string {
    if parts == [] then []
    else if |parts| == 1 then parts[0]
    else parts[0] + [sep] + Join(parts[1..], sep)
  }

  lemma SplitCons(a: string, sep: char, b: string)
    requires sep !in a
    ensures Split(a + [sep] + b, sep) == [a] + Split(b, sep)
  {
    IndexOfIs(a, sep, b);
    var s := a + [sep] + b;
    assert s[..|a|] == a;
    assert s[|a| + 1..] == b;
  }

  lemma JoinCons(first: string, rest: seq<string>, sep: char)
    requires rest != []
    ensures Join([first] + rest, sep) == first + [sep] + Join(rest, sep)
  {
    assert ([first] + rest)[1..] == rest;
  }

  lemma JoinRest(s: string, sep: char, i: nat, parts: seq<string>)
    requires i < |s| && s[i] == sep && parts != [] && Join(parts, sep) == s[i + 1..]
    ensures Join([s[..i]] + parts, sep) == s
  {
    JoinCons(s[..i], parts, sep);
    assert s == s[..i] + [sep] + s[i + 1..];
  }

  lemma SplitFirst(s: string, sep: char)
    ensures var i := IndexOf(s, sep); Split(s, sep) == if i == |s| then [s] else [s[..i]] + Split(s[i + 1..], sep)
  {
  }

  /** Splitting loses nothing. */
  lemma {:induction false} JoinSplit(s: string, sep: char)
    ensures Join(Split(s, sep), sep) == s
    decreases |s|
  {
    var i := IndexOf(s, sep);
    SplitFirst(s, sep);
    if i < |s| {
      JoinSplit(s[i + 1..], sep);
      JoinRest(s, sep, i, Split(s[i + 1..], sep));
    }
  }

  /** Splitting gives joined parts back. */
  lemma {:induction false} SplitJoin(parts: seq<string>, sep: char)
    requires parts != [] && forall p | p in parts :: sep !in p
    ensures Split(Join(parts, sep), sep) == parts
    decreases |parts|
  {
    if |parts| == 1 {
      assert Split(parts[0], sep) == [parts[0]];
    } else {
      assert parts == [parts[0]] + parts[1..];
      SplitJoin(parts[1..], sep);
      SplitCons(parts[0], sep, Join(parts[1..], sep));
    }
  }

  /** Each line followed by a newline, as a builder loop writes them. */
  function Unlines(lines: seq<string>): string {
    if lines == [] then [] else lines[0] + ['\n'] + Unlines(lines[1..])
  }

  lemma Reassociate<T>(a: seq<T>, b: seq<T>, c: seq<T>)
    ensures a + b + c == a + (b + c)
  {
  }

  lemma {:induction false} UnlinesSnoc(lines: seq<string>, line: string)
    ensures Unlines(lines + [line]) == Unlines(lines) + line + ['\n']
    decreases |lines|
  {
    if lines == [] {
      assert lines + [line] == [line];
    } else {
      var rest := lines[1..];
      UnlinesSnoc(rest, line);
      assert (lines + [line])[1..] == rest + [line];
      Reassociate(lines[0] + ['\n'], Unlines(rest), line);
      Reassociate(lines[0] + ['\n'], Unlines(rest) + line, ['\n']);
    }
  }

  lemma {:induction false} UnlinesAppend(a: seq<string>, b: seq<string>)
    ensures Unlines(a + b) == Unlines(a) + Unlines(b)
    decreases |a|
  {
    if a == [] {
      assert a + b == b;
    } else {
      UnlinesAppend(a[1..], b);
      assert (a + b)[1..] == a[1..] + b;
    }
  }

  lemma UnlinesCons(lines: seq<string>, rest: string)
    requires lines != []
    ensures Unlines(lines) + rest == lines[0] + ['\n'] + (Unlines(lines[1..]) + rest)
  {
  }

  lemma Regroup<T>(head: T, tail: seq<T>, rest: seq<T>)
    ensures [head] + tail + rest == [head] + (tail + rest)
  {
  }

  /** Splitting undoes `Unlines`, up to what follows the last newline. */
  lemma {:induction false} SplitUnlines(lines: seq<string>, rest: string)
    requires forall l | l in lines :: '\n' !in l
    ensures Split(Unlines(lines) + rest, '\n') == lines + Split(rest, '\n')
    decreases |lines|
  {
    if lines == [] {
      assert Unlines(lines) + rest == rest;
    } else {
      assert lines == [lines[0]] + lines[1..];
      UnlinesCons(lines, rest);
      Regroup(lines[0], lines[1..], Split(rest, '\n'));
      SplitUnlines(lines[1..], rest);
      SplitCons(lines[0], '\n', Unlines(lines[1..]) + rest);
    }
  }

  /** `strings.ReplaceAll(s, "\r\n", "\n")`. */
  function NormalizeNewlines(s: string): (r: string)
    ensures |r| <= |s|
    decreases |s|
  {
    if |s| < 2 then s
    else if s[0] == '\r' && s[1] == '\n' then ['\n'] + NormalizeNewlines(s[2..])
    else [s[0]] + NormalizeNewlines(s[1..])
  }

  lemma {:induction false} NormalizeCrFree(s: string)
    requires '\r' !in s
    ensures NormalizeNewlines(s) == s
    decreases |s|
  {
    if |s| >= 2 {
      NormalizeCrFree(s[1..]);
    }
  }

  function JoinCrLf(parts: seq<string>): string {
    if parts == [] then [] else if |parts| == 1 then parts[0] else parts[0] + "\r\n" + JoinCrLf(parts[1..])
  }

  predicate HasCrLf(s: string) { exists k :: 0 < k < |s| && s[k - 1] == '\r' && s[k] == '\n' }

  lemma NormalizeStep(s: string)
    requires s != []
    ensures if |s| >= 2 && s[0] == '\r' && s[1] == '\n' then
              NormalizeNewlines(s) == ['\n'] + NormalizeNewlines(s[2..])
            else NormalizeNewlines(s) == [s[0]] + NormalizeNewlines(s[1..])
  {
    if |s| == 1 {
      assert s[1..] == [] && s == [s[0]];
    }
  }

  lemma CrLfPrepend(c: char, part: string)
    requires !HasCrLf(part) && (part != [] ==> !(c == '\r' && part[0] == '\n'))
    ensures !HasCrLf([c] + part)
  {
    var s := [c] + part;
    forall k | 0 < k < |s|
      ensures !(s[k - 1] == '\r' && s[k] == '\n')
    {
      assert s[k] == part[k - 1] && (k > 1 ==> s[k - 1] == part[k - 2]);
    }
  }

  /** Normalization turns every CRLF, and nothing else, into a newline: any text is
      cut by them into parts without any, and the parts come back joined by newlines. */
  lemma {:induction false} NewlinesAreNormalized(s: string) returns (parts: seq<string>)
    ensures parts != [] && forall p | p in parts :: !HasCrLf(p)
    ensures s == JoinCrLf(parts) && NormalizeNewlines(s) == Join(parts, '\n')
    decreases |s|
  {
    if s == [] {
      parts := [[]];
    } else if |s| >= 2 && s[0] == '\r' && s[1] == '\n' {
      NormalizeStep(s);
      var rest := NewlinesAreNormalized(s[2..]);
      parts := [[]] + rest;
      assert parts[1..] == rest;
      assert s == [] + "\r\n" + s[2..];
    } else {
      NormalizeStep(s);
      var rest := NewlinesAreNormalized(s[1..]);
      if rest[0] != [] {
        StartsWithPart(rest);
      }
      CrLfPrepend(s[0], rest[0]);
      parts := [[s[0]] + rest[0]] + rest[1..];
      PrependToFirst(s[0], rest);
      assert s == [s[0]] + s[1..];
    }
  }

  lemma StartsWithPart(parts: seq<string>)
    requires parts != [] && parts[0] != []
    ensures JoinCrLf(parts) != [] && JoinCrLf(parts)[0] == parts[0][0]
  {
  }

  lemma PrependToFirst(c: char, parts: seq<string>)
    requires parts != []
    ensures var more := [[c] + parts[0]] + parts[1..];
            JoinCrLf(more) == [c] + JoinCrLf(parts) && Join(more, '\n') == [c] + Join(parts, '\n')
  {
    var more := [[c] + parts[0]] + parts[1..];
    assert more[1..] == parts[1..];
  }
}
