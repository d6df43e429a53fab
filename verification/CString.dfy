/** C-style string escaping in the shell (sqlite/shell.c): output_c_string, the token loop of
    do_meta_command, and resolve_backslashes, which both work in place on the input line. */
module CString {

  predicate IsText(s: string) { forall i :: 0 <= i < |s| ==> s[i] != '\0' && s[i] as int < 256 }

  predicate IsOctal(c: char) { '0' <= c <= '7' }

  predicate IsSpace(c: char) { c == ' ' || '\t' <= c <= '\r' }

  predicate IsPrint(c: char) { ' ' <= c <= '~' }

  // ---------------------------------------------------------------- output_c_string

  function Oct3(v: nat): string
    requires v < 256
  {
    ['0' + (v / 64) as char, '0' + (v / 8 % 8) as char, '0' + (v % 8) as char]
  }

  function EscapeChar(c: char): string
    requires c as int < 256
  {
    if c == '\\' then "\\\\"
    else if c == '"' then "\\\""
    else if c == '\t' then "\\t"
    else if c == '\n' then "\\n"
    else if c == '\r' then "\\r"
    else if !IsPrint(c) then "\\" + Oct3(c as int)
    else [c]
  }

  function Escaped(s: string): string
    requires IsText(s)
  {
    if s == "" then "" else EscapeChar(s[0]) + Escaped(s[1..])
  }

  lemma {:induction false} EscapedSnoc(s: string, c: char)
    requires IsText(s) && c != '\0' && c as int < 256
    ensures Escaped(s + [c]) == Escaped(s) + EscapeChar(c)
    decreases |s|
  {
    hide EscapeChar;
    if s == "" {
      assert (s + [c])[1..] == "";
    } else {
      EscapedSnoc(s[1..], c);
      assert (s + [c])[1..] == s[1..] + [c];
    }
  }

  /** output_c_string. */
  method OutputCString(z: string) returns (out: string)
    requires IsText(z)
    ensures out == "\"" + Escaped(z) + "\""
  {
    hide Escaped, Oct3;
    out := "\"";
    var i := 0;
    assert Escaped(z[..0]) == "" by { EscapedEmpty(); }
    while i < |z|
      invariant i <= |z| && out == "\"" + Escaped(z[..i])
    {
      var c := z[i];
      EscapedSnoc(z[..i], c);
      assert z[..i + 1] == z[..i] + [c];
      if c == '\\' {
        out := out + [c, c];
      } else if c == '"' {
        out := out + "\\\"";
      } else if c == '\t' {
        out := out + "\\t";
      } else if c == '\n' {
        out := out + "\\n";
      } else if c == '\r' {
        out := out + "\\r";
      } else if !IsPrint(c) {
        out := out + ("\\" + Oct3(c as int));
      } else {
        out := out + [c];
      }
      i := i + 1;
    }
    assert z[..i] == z;
    out := out + "\"";
  }

  lemma EscapedEmpty() ensures Escaped("") == "" { }

  // ---------------------------------------------------------------- resolve_backslashes

  /** The character that a letter stands for after a backslash. */
  function Letter(c: char): char {
    if c == 'a' then '\U{7}' else if c == 'b' then '\U{8}' else if c == 't' then '\t' else if c == 'n' then '\n'
    else if c == 'v' then '\U{b}' else if c == 'f' then '\U{c}' else if c == 'r' then '\r' else c
  }

  /** The escapes that the comment above resolve_backslashes lists, in ASCII. */
  function DocumentedEscape(c: char): int {
    match c
    case 'a' => 7
    case 'b' => 8
    case 't' => 9
    case 'n' => 10
    case 'v' => 11
    case 'f' => 12
    case 'r' => 13
    case 's' => 32
    case '"' => 34
    case '\'' => 39
    case '\\' => 92
    case _ => c as int
  }

  function OctalDigit(c: char): (d: nat)
    requires IsOctal(c)
    ensures d < 8
  {
    c as int - '0' as int
  }

  /** A C char keeps eight bits. */
  function Byte(v: nat): char { (v % 256) as char }

  /** One character of the result and how many characters of the input it takes. */
  function Step(s: string): (r: (char, nat))
    requires s != ""
    ensures 1 <= r.1 <= |s|
  {
    if s[0] != '\\' || |s| == 1 then (s[0], 1)
    else if !IsOctal(s[1]) then (Letter(s[1]), 2)
    else if |s| == 2 || !IsOctal(s[2]) then (Byte(OctalDigit(s[1])), 2)
    else if |s| == 3 || !IsOctal(s[3]) then (Byte(8 * OctalDigit(s[1]) + OctalDigit(s[2])), 3)
    else (Byte(64 * OctalDigit(s[1]) + 8 * OctalDigit(s[2]) + OctalDigit(s[3])), 4)
  }

  function Resolve(s: string): (r: string)
    ensures |r| <= |s|
  {
    if s == "" then "" else [Step(s).0] + Resolve(s[Step(s).1..])
  }

  /** A backslash and a character that is not an octal digit, anywhere in a text: code and comment agree on every
      escape but that of the letter s, which the code takes for itself. */
  lemma EscapesAsDocumented(c: char, t: string)
    requires c != '\0' && !IsOctal(c)
    ensures Resolve(['\\', c] + t) == [if c == 's' then 's' else DocumentedEscape(c) as char] + Resolve(t)
  {
    var z := ['\\', c] + t;
    assert z[0] == '\\' && z[1] == c && z[2..] == t;
  }

  /** A backslash and octal digits: the character with that code, cut to eight bits. */
  lemma OctalsAsDocumented(a: nat, b: nat, c: nat, t: string)
    requires a < 8 && b < 8 && c < 8
    ensures var z := ['\\', (48 + a) as char, (48 + b) as char, (48 + c) as char] + t;
      Resolve(z) == [((64 * a + 8 * b + c) % 256) as char] + Resolve(t)
  {
    var z := ['\\', (48 + a) as char, (48 + b) as char, (48 + c) as char] + t;
    assert z[1] == (48 + a) as char && z[2] == (48 + b) as char && z[3] == (48 + c) as char && z[4..] == t;
  }

  /** A backslash and the three octal digits of n. */
  predicate IsOctalEscape(e: string, n: int) {
    && |e| == 4 && e[0] == '\\' && (forall k :: 1 <= k < 4 ==> '0' <= e[k] <= '7')
    && 64 * (e[1] as int - 48) + 8 * (e[2] as int - 48) + (e[3] as int - 48) == n
  }

  /** What each character is written as: two-character escapes for backslash, quote, tab, newline and return, three
      octal digits for what is not printable ASCII, and everything else as it is. */
  lemma EscapesWritten(c: char)
    requires c as int < 256
    ensures var e, n := EscapeChar(c), c as int;
      if n == 92 || n == 34 then e == ['\\', c]
      else if n == 9 then e == "\\t" else if n == 10 then e == "\\n" else if n == 13 then e == "\\r"
      else if 32 <= n <= 126 then e == [c]
      else IsOctalEscape(e, n)
  {
  }

  /** White space is blank, tab, newline, vertical tab, form feed and return. */
  lemma SpacesInAscii(c: char)
    ensures IsSpace(c) <==> c as int in {32, 9, 10, 11, 12, 13}
    ensures IsOctal(c) <==> c in "01234567"
  {
  }

  /** An escaped character is one step, whatever follows. */
  lemma EscapeThenStep(c: char, t: string)
    requires c != '\0' && c as int < 256
    ensures Step(EscapeChar(c) + t) == (c, |EscapeChar(c)|)
  {
    if !IsPrint(c) && c != '\t' && c != '\n' && c != '\r' {
      OctalThenStep(c as int, t);
    } else {
      var e := EscapeChar(c);
      hide Oct3;
      assert forall i :: 0 <= i < |e| ==> (e + t)[i] == e[i];
    }
  }

  lemma OctalThenStep(v: nat, t: string)
    requires v < 256
    ensures Step("\\" + Oct3(v) + t) == (v as char, 4)
  {
    var d := Oct3(v);
    var s := "\\" + d + t;
    assert s[0] == '\\' && s[1] == d[0] && s[2] == d[1] && s[3] == d[2];
    assert OctalDigit(d[0]) == v / 64 && OctalDigit(d[1]) == v / 8 % 8 && OctalDigit(d[2]) == v % 8;
    assert 64 * (v / 64) + 8 * (v / 8 % 8) + v % 8 == v;
  }

  /** Escaping is undone by resolving, for every string of bytes other than NUL. */
  lemma {:induction false} ResolveEscaped(s: string)
    requires IsText(s)
    ensures Resolve(Escaped(s)) == s
    decreases |s|
  {
    hide EscapeChar, Step;
    if s != "" {
      var e, t := EscapeChar(s[0]), Escaped(s[1..]);
      EscapeThenStep(s[0], t);
      assert (e + t)[|e|..] == t;
      ResolveEscaped(s[1..]);
    }
  }

  lemma {:induction false} PlainPrefix(s: string, k: nat)
    requires k <= |s| && forall i :: 0 <= i < k ==> s[i] != '\\'
    ensures Resolve(s) == s[..k] + Resolve(s[k..])
    decreases k
  {
    if k == 0 {
      assert s[0..] == s;
    } else {
      PlainPrefix(s[1..], k - 1);
      assert s[1..][k - 1..] == s[k..];
      assert s[..k] == [s[0]] + s[1..][..k - 1];
    }
  }

  /** From `start` on, the buffer holds t and then a NUL. */
  ghost predicate Holds(a: seq<char>, start: nat, t: string) {
    start + |t| < |a| && a[start..start + |t|] == t && a[start + |t|] == '\0'
  }

  /** Input from index i on is unread and intact; what was read before it is resolved, up to index j. */
  ghost predicate Progress(b: seq<char>, s: string, start: nat, end: nat, i: nat, j: nat) {
    && start <= j <= i <= end < |b| && |s| == end - start && b[end] == '\0'
    && b[i..end] == s[i - start..]
    && b[start..j] + Resolve(s[i - start..]) == Resolve(s)
  }

  lemma ProgressStep(b: seq<char>, s: string, start: nat, end: nat, i: nat, j: nat)
    requires Progress(b, s, start, end, i, j) && i < end
    ensures var (c, n) := Step(b[i..end]); i + n <= end && Progress(b[j := c], s, start, end, i + n, j + 1)
  {
    hide Step, Resolve;
    var rest := b[i..end];
    var (c, n) := Step(rest);
    ResolveStep(rest);
    assert rest[n..] == s[i + n - start..];
    var d := b[j := c];
    assert d[start..j + 1] == b[start..j] + [c];
    assert d[i + n..end] == rest[n..];
    assert b[start..j] + ([c] + Resolve(rest[n..])) == b[start..j] + [c] + Resolve(rest[n..]);
  }

  lemma ProgressRead(b: seq<char>, s: string, start: nat, end: nat, i: nat, j: nat)
    requires Progress(b, s, start, end, i, j) && '\0' !in s
    ensures start <= j <= i <= end < |b| && b[end] == '\0' && forall k :: i <= k < end ==> b[k] != '\0'
  {
    hide Resolve;
    forall k | i <= k < end ensures b[k] != '\0' {
      assert b[k] == b[i..end][k - i] == s[i - start..][k - i] == s[k - start];
    }
  }

  lemma ProgressDone(b: seq<char>, s: string, start: nat, end: nat, j: nat)
    requires Progress(b, s, start, end, end, j)
    ensures b[start..j] == Resolve(s) && start + |Resolve(s)| == j
    ensures Holds(b[j := '\0'], start, Resolve(s)) && (j == end ==> b[j := '\0'] == b)
  {
    hide Resolve;
    ResolveEmpty();
    assert s[end - start..] == "";
    assert b[j := '\0'][start..j] == b[start..j];
  }

  /** resolve_backslashes on the C string that begins at `start` and ends at `end`: the write index never
      passes the read index, so what is still to be read is intact. */
  method ResolveBackslashes(a: array<char>, start: nat, ghost end: nat)
    requires start <= end < a.Length && a[end] == '\0'
    requires forall k :: start <= k < end ==> a[k] != '\0'
    modifies a
    ensures Holds(a[..], start, Resolve(old(a[start..end]))) && start + |Resolve(old(a[start..end]))| <= end
    ensures forall k :: 0 <= k < a.Length && !(start <= k < end) ==> a[k] == old(a[k])
  {
    hide Step, Resolve, Progress, Holds;
    ghost var s := a[start..end];
    var z := start;
    while a[z] != '\0' && a[z] != '\\'
      invariant start <= z <= end && forall k :: start <= k < z ==> a[k] != '\\'
      decreases end - z
    {
      z := z + 1;
    }
    SkippedPlain(a[..], s, start, end, z);
    var i, j := z, z;
    ProgressRead(a[..], s, start, end, i, j);
    while a[i] != '\0'
      invariant Progress(a[..], s, start, end, i, j)
      invariant start <= j <= i <= end && a[end] == '\0' && forall k :: i <= k < end ==> a[k] != '\0'
      invariant forall k :: 0 <= k < a.Length && !(start <= k < end) ==> a[k] == old(a[k])
      decreases end - i
    {
      ProgressStep(a[..], s, start, end, i, j);
      var c, n := ReadStep(a, i, end);
      assert a[..][i..end] == a[i..end];
      ghost var b := a[..];
      a[j] := c;
      assert a[..] == b[j := c];
      i := i + n;
      j := j + 1;
      ProgressRead(a[..], s, start, end, i, j);
    }
    ghost var b := a[..];
    ProgressDone(b, s, start, end, j);
    if j < i {
      a[j] := '\0';
      assert a[..] == b[j := '\0'];
    }
  }

  lemma SkippedPlain(b: seq<char>, s: string, start: nat, end: nat, z: nat)
    requires start <= z <= end < |b| && s == b[start..end] && b[end] == '\0'
    requires forall k :: start <= k < z ==> b[k] != '\\'
    ensures Progress(b, s, start, end, z, z)
  {
    hide Resolve;
    PlainPrefix(s, z - start);
    assert s[..z - start] == b[start..z] && s[z - start..] == b[z..end];
  }

  lemma ResolveEmpty() ensures Resolve("") == "" { }

  lemma ResolveStep(s: string)
    requires s != ""
    ensures Resolve(s) == [Step(s).0] + Resolve(s[Step(s).1..])
  {
  }

  /** The branches that read one character, with its escape, at index i. */
  method ReadStep(a: array<char>, i: nat, ghost end: nat) returns (c: char, n: nat)
    requires i < end < a.Length && a[end] == '\0' && forall k :: i <= k < end ==> a[k] != '\0'
    ensures (c, n) == Step(a[i..end])
  {
    ghost var s := a[i..end];
    assert forall k :: 0 <= k < |s| ==> s[k] == a[i + k];
    c, n := a[i], 1;
    if c == '\\' && a[i + 1] != '\0' {
      c, n := a[i + 1], 2;
      if IsOctal(c) {
        var v := OctalDigit(c);
        c := Byte(v);
        if IsOctal(a[i + 2]) {
          n := 3;
          v := 8 * v + OctalDigit(a[i + 2]);
          c := Byte(v);
          if IsOctal(a[i + 3]) {
            n := 4;
            c := Byte(8 * v + OctalDigit(a[i + 3]));
          }
        }
      } else {
        c := Letter(c);
      }
    }
  }

  // ---------------------------------------------------------------- the token loop

  const MAX_ARGS: nat := 50

  function SpaceLen(s: string): (n: nat)
    ensures n <= |s| && (forall k :: 0 <= k < n ==> IsSpace(s[k])) && (n < |s| ==> !IsSpace(s[n]))
  {
    if s == "" || !IsSpace(s[0]) then 0 else 1 + SpaceLen(s[1..])
  }

  /** Length of a quoted token: up to its closing delimiter or the end. */
  function QuotedLen(s: string, delim: char): (n: nat)
    ensures n <= |s| && (n < |s| ==> s[n] == delim)
  {
    if s == "" || s[0] == delim then 0
    else if s[0] == '\\' && delim == '"' && |s| > 1 then 2 + QuotedLen(s[2..], delim)
    else 1 + QuotedLen(s[1..], delim)
  }

  function PlainLen(s: string): (n: nat)
    ensures n <= |s|
  {
    if s == "" || IsSpace(s[0]) then 0 else 1 + PlainLen(s[1..])
  }

  /** The part of u after a token of n characters, and after its delimiter if there is one. */
  function After(u: string, n: nat): (r: string)
    requires n <= |u|
    ensures |r| <= |u| - n
  {
    if n < |u| then u[n + 1..] else ""
  }

  /** The arguments of a line, at most n of them. */
  function Tokens(s: string, n: nat): seq<string>
    decreases n
  {
    if n == 0 then [] else
      var u := s[SpaceLen(s)..];
      if u == "" then []
      else if u[0] == '\'' || u[0] == '"' then
        var k := QuotedLen(u[1..], u[0]);
        [if u[0] == '"' then Resolve(u[1..][..k]) else u[1..][..k]] + Tokens(After(u[1..], k), n - 1)
      else
        [Resolve(u[..PlainLen(u)])] + Tokens(After(u, PlainLen(u)), n - 1)
  }

  lemma TokenQuoted(line: string, n: nat, u: string, k: nat)
    requires n > 0 && u == line[SpaceLen(line)..] && u != "" && (u[0] == '\'' || u[0] == '"')
      && k == QuotedLen(u[1..], u[0])
    ensures Tokens(line, n) ==
      [if u[0] == '"' then Resolve(u[1..][..k]) else u[1..][..k]] + Tokens(After(u[1..], k), n - 1)
  {
  }

  lemma TokenPlain(line: string, n: nat, u: string, k: nat)
    requires n > 0 && u == line[SpaceLen(line)..] && u != "" && u[0] != '\'' && u[0] != '"' && k == PlainLen(u)
    ensures Tokens(line, n) == [Resolve(u[..k])] + Tokens(After(u, k), n - 1)
  {
  }

  lemma NoToken(line: string, n: nat)
    requires n == 0 || SpaceLen(line) == |line|
    ensures Tokens(line, n) == []
  {
  }

  /** A line of arguments, each written by output_c_string, after some white space. */
  function Arguments(args: seq<string>, gap: string): string
    requires forall i :: 0 <= i < |args| ==> IsText(args[i])
  {
    if args == [] then "" else gap + ("\"" + (Escaped(args[0]) + "\"" + Arguments(args[1..], gap)))
  }

  lemma EscapeCharLen(c: char, t: string)
    requires c != '\0' && c as int < 256
    ensures QuotedLen(EscapeChar(c) + t, '"') == |EscapeChar(c)| + QuotedLen(t, '"')
  {
    var e := EscapeChar(c);
    var s := e + t;
    if |e| == 1 {
      assert s[0] == c && s[1..] == t;
    } else {
      assert s[0] == '\\' && s[2..] == e[2..] + t;
      if |e| == 2 {
        assert s[2..] == t;
      } else {
        assert IsOctal(e[2]) && IsOctal(e[3]);
        var r := s[2..];
        assert r[0] == e[2] && r[1..] == [e[3]] + t && ([e[3]] + t)[1..] == t;
        assert QuotedLen([e[3]] + t, '"') == 1 + QuotedLen(t, '"');
        assert QuotedLen(r, '"') == 2 + QuotedLen(t, '"');
      }
    }
  }

  /** No escaped text closes its own quotes. */
  lemma {:induction false} EscapedLen(s: string, t: string)
    requires IsText(s)
    ensures QuotedLen(Escaped(s) + "\"" + t, '"') == |Escaped(s)|
    decreases |s|
  {
    hide EscapeChar;
    if s == "" {
      assert (Escaped(s) + "\"" + t)[0] == '"';
    } else {
      EscapedLen(s[1..], t);
      var rest := Escaped(s[1..]) + "\"" + t;
      assert Escaped(s) + "\"" + t == EscapeChar(s[0]) + rest;
      EscapeCharLen(s[0], rest);
    }
  }

  lemma {:induction false} SpaceLenOf(gap: string, t: string)
    requires forall i :: 0 <= i < |gap| ==> IsSpace(gap[i])
    requires t != "" && !IsSpace(t[0])
    ensures SpaceLen(gap + t) == |gap|
    decreases |gap|
  {
    if gap == "" {
      assert gap + t == t;
    } else {
      var s := gap + t;
      assert s[0] == gap[0] && s[1..] == gap[1..] + t;
      SpaceLenOf(gap[1..], t);
    }
  }

  lemma Behind(a: string, b: string)
    ensures (a + b)[|a|..] == b
  {
  }

  /** The first quoted argument of a line is the first token. */
  lemma FirstArgument(arg: string, gap: string, more: string, n: nat)
    requires n > 0 && IsText(arg) && forall i :: 0 <= i < |gap| ==> IsSpace(gap[i])
    ensures Tokens(gap + ("\"" + (Escaped(arg) + "\"" + more)), n) == [arg] + Tokens(more, n - 1)
  {
    hide Escaped, SpaceLen, QuotedLen, Resolve, Tokens;
    var e := Escaped(arg);
    var v := e + "\"" + more;
    var u := "\"" + v;
    SpaceLenOf(gap, u);
    Behind(gap, u);
    assert u[1..] == v;
    EscapedLen(arg, more);
    TokenQuoted(gap + u, n, u, |e|);
    assert v[..|e|] == e && v[|e| + 1..] == more;
    ResolveEscaped(arg);
  }

  /** Every list of up to n byte strings comes back from the line that quotes them. */
  lemma {:induction false} ArgumentsRoundTrip(args: seq<string>, gap: string, n: nat)
    requires forall i :: 0 <= i < |args| ==> IsText(args[i])
    requires forall i :: 0 <= i < |gap| ==> IsSpace(gap[i])
    requires |args| <= n
    ensures Tokens(Arguments(args, gap), n) == args
    decreases |args|
  {
    hide Escaped, SpaceLen, QuotedLen, Resolve, Tokens;
    if args == [] {
      NoToken("", n);
    } else {
      FirstArgument(args[0], gap, Arguments(args[1..], gap), n);
      ArgumentsRoundTrip(args[1..], gap, n - 1);
    }
  }

  /** A word of a line: in double quotes and escaped, in single quotes, or bare. */
  datatype Word = Escaping(x: string) | Verbatim(x: string) | Bare(x: string)

  predicate IsWord(w: Word) {
    match w
    case Escaping(x) => IsText(x)
    case Verbatim(x) => '\'' !in x
    case Bare(x) => x != "" && x[0] != '\'' && x[0] != '"' && forall k :: 0 <= k < |x| ==> !IsSpace(x[k])
  }

  /** Only double quotes and bare words have their backslashes resolved. */
  function WordMeans(w: Word): string {
    match w case Escaping(x) => x case Verbatim(x) => x case Bare(x) => Resolve(x)
  }

  function WordText(w: Word, more: string): string
    requires IsWord(w)
  {
    match w
    case Escaping(x) => "\"" + (Escaped(x) + "\"" + more)
    case Verbatim(x) => "'" + (x + "'" + more)
    case Bare(x) => x + (" " + more)
  }

  function WordsText(ws: seq<Word>, gap: string): string
    requires forall i :: 0 <= i < |ws| ==> IsWord(ws[i])
  {
    if ws == [] then gap else gap + WordText(ws[0], WordsText(ws[1..], gap))
  }

  lemma {:induction false} VerbatimLen(x: string, t: string)
    requires '\'' !in x
    ensures QuotedLen(x + "'" + t, '\'') == |x|
    decreases |x|
  {
    var s := x + "'" + t;
    if x == "" {
      assert s[0] == '\'';
    } else {
      assert x[0] in x && s[0] == x[0] && s[1..] == x[1..] + "'" + t;
      VerbatimLen(x[1..], t);
    }
  }

  lemma {:induction false} BareLen(x: string, t: string)
    requires forall k :: 0 <= k < |x| ==> !IsSpace(x[k])
    ensures PlainLen(x + (" " + t)) == |x|
    decreases |x|
  {
    var s := x + (" " + t);
    if x == "" {
      assert s[0] == ' ';
    } else {
      assert s[0] == x[0] && s[1..] == x[1..] + (" " + t);
      BareLen(x[1..], t);
    }
  }

  lemma FirstWord(w: Word, gap: string, more: string, n: nat)
    requires n > 0 && IsWord(w) && forall i :: 0 <= i < |gap| ==> IsSpace(gap[i])
    ensures Tokens(gap + WordText(w, more), n) == [WordMeans(w)] + Tokens(more, n - 1)
  {
    hide Escaped, SpaceLen, QuotedLen, PlainLen, Resolve, Tokens;
    var u := WordText(w, more);
    match w
    case Escaping(x) => FirstArgument(x, gap, more, n);
    case Verbatim(x) =>
      var v := x + "'" + more;
      SpaceLenOf(gap, u);
      Behind(gap, u);
      assert u[1..] == v;
      VerbatimLen(x, more);
      TokenQuoted(gap + u, n, u, |x|);
      assert v[..|x|] == x && v[|x| + 1..] == more;
    case Bare(x) =>
      assert u[0] == x[0];
      SpaceLenOf(gap, u);
      Behind(gap, u);
      BareLen(x, more);
      TokenPlain(gap + u, n, u, |x|);
      assert u[..|x|] == x && u[|x| + 1..] == more;
  }

  lemma {:induction false} OnlySpaces(gap: string)
    requires forall i :: 0 <= i < |gap| ==> IsSpace(gap[i])
    ensures SpaceLen(gap) == |gap|
    decreases |gap|
  {
    if gap != "" { OnlySpaces(gap[1..]); }
  }

  function Fewer(n: nat, ws: seq<Word>): nat { if n < |ws| then n else |ws| }

  /** Every line of words gives the words, the first n of them when there are more. */
  lemma {:induction false} WordsRoundTrip(ws: seq<Word>, gap: string, n: nat)
    requires forall i :: 0 <= i < |ws| ==> IsWord(ws[i])
    requires forall i :: 0 <= i < |gap| ==> IsSpace(gap[i])
    ensures var ts := Tokens(WordsText(ws, gap), n);
      |ts| == Fewer(n, ws) && forall i :: 0 <= i < |ts| ==> ts[i] == WordMeans(ws[i])
    decreases |ws|
  {
    hide SpaceLen, Tokens, WordMeans, WordText, IsWord;
    if n == 0 {
      NoToken(WordsText(ws, gap), n);
    } else if ws == [] {
      OnlySpaces(gap);
      NoToken(gap, n);
    } else {
      FirstWord(ws[0], gap, WordsText(ws[1..], gap), n);
      WordsRoundTrip(ws[1..], gap, n - 1);
    }
  }

  // ---------------------------------------------------------------- the token loop, in place

  method SkipSpaces(a: array<char>, from: nat, ghost end: nat) returns (h: nat)
    requires from <= end < a.Length && a[end] == '\0'
    ensures from <= h <= end && h == from + SpaceLen(a[from..end])
  {
    h := from;
    while IsSpace(a[h])
      invariant from <= h <= end && from + SpaceLen(a[from..end]) == h + SpaceLen(a[h..end])
      decreases end - h
    {
      assert a[h..end][1..] == a[h + 1..end];
      h := h + 1;
    }
  }

  lemma QuotedStep(s: string, delim: char)
    requires s != "" && s[0] != delim
    ensures QuotedLen(s, delim) ==
      if s[0] == '\\' && delim == '"' && |s| > 1 then 2 + QuotedLen(s[2..], delim) else 1 + QuotedLen(s[1..], delim)
  {
  }

  method FindDelimiter(a: array<char>, from: nat, delim: char, ghost end: nat) returns (h: nat)
    requires from <= end < a.Length && a[end] == '\0' && delim != '\0'
    requires forall k :: from <= k < end ==> a[k] != '\0'
    ensures from <= h <= end && h == from + QuotedLen(a[from..end], delim)
  {
    hide QuotedLen;
    h := from;
    while a[h] != '\0' && a[h] != delim
      invariant from <= h <= end && from + QuotedLen(a[from..end], delim) == h + QuotedLen(a[h..end], delim)
      decreases end - h
    {
      ghost var s := a[h..end];
      assert s[0] == a[h] && s[1..] == a[h + 1..end];
      QuotedStep(s, delim);
      if a[h] == '\\' && delim == '"' && a[h + 1] != '\0' {
        assert s[2..] == a[h + 2..end];
        h := h + 1;
      }
      h := h + 1;
    }
    QuotedEnd(a[h..end], delim);
  }

  lemma QuotedEnd(s: string, delim: char)
    requires s == "" || s[0] == delim
    ensures QuotedLen(s, delim) == 0
  {
  }

  method FindSpace(a: array<char>, from: nat, ghost end: nat) returns (h: nat)
    requires from <= end < a.Length && a[end] == '\0'
    requires forall k :: from <= k < end ==> a[k] != '\0'
    ensures from <= h <= end && h == from + PlainLen(a[from..end])
  {
    h := from;
    while a[h] != '\0' && !IsSpace(a[h])
      invariant from <= h <= end && from + PlainLen(a[from..end]) == h + PlainLen(a[h..end])
      decreases end - h
    {
      assert a[h..end][1..] == a[h + 1..end];
      h := h + 1;
    }
  }

  /** Ends the token [from, h) with a NUL over its delimiter and resolves it if asked to; returns where
      the scan goes on. */
  method EndToken(a: array<char>, from: nat, h: nat, resolve: bool, ghost end: nat) returns (next: nat)
    requires from <= h <= end < a.Length && a[end] == '\0'
    requires forall k :: from <= k < end ==> a[k] != '\0'
    modifies a
    ensures next == if h < end then h + 1 else end
    ensures var raw := old(a[from..h]); var t := if resolve then Resolve(raw) else raw;
      Holds(a[..], from, t) && from + |t| <= h
    ensures forall k :: 0 <= k < a.Length && !(from <= k <= h) ==> a[k] == old(a[k])
    ensures a[end] == '\0'
  {
    hide Resolve;
    next := h;
    ghost var raw := a[from..h];
    if a[h] != '\0' {
      a[h] := '\0';
      next := h + 1;
    }
    assert a[from..h] == raw;
    if resolve {
      ResolveBackslashes(a, from, h);
    } else {
      assert a[..][from..h] == raw;
    }
  }

  /** The tokens found so far stand in the line before h, or h is at the end. */
  ghost predicate Found(a: seq<char>, azArg: seq<nat>, t: seq<string>, h: nat, end: nat) {
    && |azArg| == |t|
    && forall k :: 0 <= k < |t| ==> Holds(a, azArg[k], t[k]) && (h < end ==> azArg[k] + |t[k]| < h)
  }

  lemma FoundMore(a: seq<char>, b: seq<char>, azArg: seq<nat>, t: seq<string>, h: nat, end: nat, from: nat,
      next: nat, x: string)
    requires Found(a, azArg, t, h, end) && h < end && |a| == |b| && h <= from
    requires forall k :: 0 <= k < from && k < |a| ==> a[k] == b[k]
    requires Holds(b, from, x) && (next < end ==> from + |x| < next) && h <= next <= end
    ensures Found(b, azArg + [from], t + [x], next, end)
  {
    forall k | 0 <= k < |t| ensures Holds(b, azArg[k], t[k]) {
      assert Holds(a, azArg[k], t[k]);
      var p, q := azArg[k], azArg[k] + |t[k]|;
      assert b[p..q] == a[p..q];
    }
  }

  lemma FoundNone(a: seq<char>, h: nat, end: nat)
    ensures Found(a, [], [], h, end)
  {
  }

  lemma FoundAtEnd(a: seq<char>, azArg: seq<nat>, t: seq<string>, h: nat, end: nat)
    requires Found(a, azArg, t, h, end)
    ensures Found(a, azArg, t, end, end) && |azArg| == |t|
  {
  }

  lemma Regroup(t: seq<string>, x: string, more: seq<string>)
    ensures t + ([x] + more) == t + [x] + more
  {
  }

  /** Where the token at h begins and stops, and whether its backslashes are resolved. */
  method ScanToken(a: array<char>, h: nat, ghost line: string, ghost n: nat, ghost end: nat)
    returns (from: nat, stop: nat, resolve: bool)
    requires h < end < a.Length && a[end] == '\0' && forall k :: h <= k < end ==> a[k] != '\0'
    requires n > 0 && line[SpaceLen(line)..] == a[h..end]
    ensures h <= from <= stop <= end && h < (if stop < end then stop + 1 else end)
    ensures Tokens(line, n) ==
      [if resolve then Resolve(a[from..stop]) else a[from..stop]]
      + Tokens(if stop < end then a[stop + 1..end] else "", n - 1)
  {
    hide Resolve, SpaceLen, QuotedLen, PlainLen, Tokens;
    from, resolve := h, true;
    if a[h] == '\'' || a[h] == '"' {
      resolve := a[h] == '"';
      from := h + 1;
      stop := FindDelimiter(a, from, a[h], end);
      QuotedToken(a[..], line, n, h, end);
    } else {
      stop := FindSpace(a, h, end);
      PlainToken(a[..], line, n, h, end);
    }
    assert a[..][h + 1..end] == a[h + 1..end] && a[..][h..end] == a[h..end];
    assert a[..][from..stop] == a[from..stop];
    assert stop < end ==> a[..][stop + 1..end] == a[stop + 1..end];
  }

  lemma QuotedToken(b: seq<char>, line: string, n: nat, h: nat, end: nat)
    requires h < end < |b| && n > 0 && line[SpaceLen(line)..] == b[h..end] && (b[h] == '\'' || b[h] == '"')
    ensures var from := h + 1; var stop := from + QuotedLen(b[from..end], b[h]);
      Tokens(line, n) == [if b[h] == '"' then Resolve(b[from..stop]) else b[from..stop]]
        + Tokens(if stop < end then b[stop + 1..end] else "", n - 1)
  {
    hide Resolve, SpaceLen, Tokens, QuotedLen;
    var u := b[h..end];
    var k := QuotedLen(b[h + 1..end], b[h]);
    assert u[0] == b[h] && u[1..] == b[h + 1..end];
    TokenQuoted(line, n, u, k);
    assert u[1..][..k] == b[h + 1..h + 1 + k];
    assert h + 1 + k < end ==> u[1..][k + 1..] == b[h + 1 + k + 1..end];
  }

  lemma PlainToken(b: seq<char>, line: string, n: nat, h: nat, end: nat)
    requires h < end < |b| && n > 0 && line[SpaceLen(line)..] == b[h..end] && b[h] != '\'' && b[h] != '"'
    ensures var stop := h + PlainLen(b[h..end]);
      Tokens(line, n) == [Resolve(b[h..stop])] + Tokens(if stop < end then b[stop + 1..end] else "", n - 1)
  {
    hide Resolve, SpaceLen, Tokens, PlainLen;
    var u := b[h..end];
    var k := PlainLen(u);
    TokenPlain(line, n, u, k);
    assert u[..k] == b[h..h + k];
    assert h + k < end ==> u[k + 1..] == b[h + k + 1..end];
  }

  lemma SameSlice(a: seq<char>, b: seq<char>, from: nat, to: nat)
    requires from <= to <= |a| == |b| && forall k :: from <= k < to ==> b[k] == a[k]
    ensures a[from..to] == b[from..to]
  {
  }

  /** The next token of the line, in place; `false` when only white space is left. */
  method NextToken(a: array<char>, h0: nat, ghost n: nat, ghost end: nat)
    returns (more: bool, h: nat, from: nat, ghost x: string)
    requires h0 <= end < a.Length && a[end] == '\0' && forall k :: h0 <= k < end ==> a[k] != '\0'
    requires n > 0
    modifies a
    ensures h0 <= h <= end && a[end] == '\0' && forall k :: h <= k < end ==> a[k] == old(a[k])
    ensures forall k :: 0 <= k < h0 ==> a[k] == old(a[k])
    ensures !more ==> h == end && Tokens(old(a[h0..end]), n) == [] && a[..] == old(a[..])
    ensures more ==> h0 <= from && h0 < h && Holds(a[..], from, x) && (h < end ==> from + |x| < h)
    ensures more ==> forall k :: 0 <= k < from ==> a[k] == old(a[k])
    ensures more ==> Tokens(old(a[h0..end]), n) == [x] + Tokens(a[h..end], n - 1)
  {
    hide Resolve, SpaceLen, Tokens, Holds;
    ghost var line := a[h0..end];
    h := SkipSpaces(a, h0, end);
    assert line[h - h0..] == a[h..end];
    from, x := h, "";
    more := a[h] != '\0';
    if !more {
      NoToken(line, n);
      return;
    }
    var stop, resolve;
    from, stop, resolve := ScanToken(a, h, line, n, end);
    x := if resolve then Resolve(a[from..stop]) else a[from..stop];
    ghost var rest, was := if stop < end then a[stop + 1..end] else "", a[..];
    assert stop < end ==> rest == was[stop + 1..end];
    h := EndToken(a, from, stop, resolve, end);
    SameSlice(was, a[..], h, end);
    assert a[h..end] == a[..][h..end] == rest;
  }

  /** do_meta_command's token loop on the line that ends at `end`: as many pointers as there are arguments,
      each to its argument's text, resolved and NUL-terminated inside the line. */
  method Tokenise(a: array<char>, ghost end: nat) returns (azArg: seq<nat>)
    requires 1 <= end < a.Length && a[end] == '\0' && forall k :: 1 <= k < end ==> a[k] != '\0'
    modifies a
    ensures Found(a[..], azArg, Tokens(old(a[1..end]), MAX_ARGS), end, end)
  {
    hide Resolve, Tokens, Found, Holds;
    var h := 1;
    azArg := [];
    ghost var s, t := a[1..end], [];
    FoundNone(a[..], h, end);
    assert t + Tokens(s, MAX_ARGS) == Tokens(s, MAX_ARGS);
    while a[h] != '\0' && |azArg| < MAX_ARGS
      invariant 1 <= h <= end && a[end] == '\0' && forall k :: h <= k < end ==> a[k] != '\0'
      invariant |azArg| <= MAX_ARGS && Found(a[..], azArg, t, h, end)
      invariant t + Tokens(a[h..end], MAX_ARGS - |azArg|) == Tokens(s, MAX_ARGS)
      decreases end - h
    {
      ghost var h0, was, n := h, a[..], MAX_ARGS - |azArg|;
      var more, next, from, x := NextToken(a, h, n, end);
      h := next;
      assert a[h..end] == was[h..end];
      if !more {
        FoundAtEnd(a[..], azArg, t, h0, end);
        NoToken(a[h..end], n);
        break;
      }
      FoundMore(was, a[..], azArg, t, h0, end, from, h, x);
      Regroup(t, x, Tokens(a[h..end], n - 1));
      azArg := azArg + [from];
      t := t + [x];
    }
    NoToken(a[h..end], MAX_ARGS - |azArg|);
    FoundAtEnd(a[..], azArg, t, h, end);
    assert t + [] == t;
  }

  /** A line of quoted arguments: every pointer leads to the string that was quoted. */
  method TokeniseQuoted(a: array<char>, ghost end: nat, ghost args: seq<string>, ghost gap: string)
    returns (azArg: seq<nat>)
    requires (forall i :: 0 <= i < |args| ==> IsText(args[i])) && (forall i :: 0 <= i < |gap| ==> IsSpace(gap[i]))
    requires |args| <= 50 && 1 <= end < a.Length && a[end] == '\0' && a[1..end] == Arguments(args, gap)
    modifies a
    ensures |azArg| == |args| && forall i :: 0 <= i < |args| ==> Holds(a[..], azArg[i], args[i])
  {
    hide Tokens, Arguments, Holds;
    ArgumentsRoundTrip(args, gap, MAX_ARGS);
    forall k | 1 <= k < end ensures a[k] != '\0' {
      assert a[1..end][k - 1] == a[k];
      ArgumentsNoNul(args, gap);
    }
    azArg := Tokenise(a, end);
  }

  lemma EscapeNoNul(c: char)
    requires c != '\0' && c as int < 256
    ensures '\0' !in EscapeChar(c)
  {
  }

  lemma {:induction false} EscapedNoNul(s: string)
    requires IsText(s)
    ensures '\0' !in Escaped(s)
    decreases |s|
  {
    hide EscapeChar;
    if s != "" {
      EscapeNoNul(s[0]);
      EscapedNoNul(s[1..]);
    }
  }

  lemma {:induction false} ArgumentsNoNul(args: seq<string>, gap: string)
    requires (forall i :: 0 <= i < |args| ==> IsText(args[i])) && (forall i :: 0 <= i < |gap| ==> IsSpace(gap[i]))
    ensures '\0' !in Arguments(args, gap)
    decreases |args|
  {
    hide Escaped;
    if args != [] {
      EscapedNoNul(args[0]);
      ArgumentsNoNul(args[1..], gap);
    }
  }
}
