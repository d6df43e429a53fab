/** SQL string literals as the shell prints them (sqlite/shell.c): quote doubling, and carriage returns and
    newlines hidden behind markers that `replace` calls turn back. */
module SqlQuote {
  import opened Core

  // ---------------------------------------------------------------- text

  predicate StartsWith(s: string, m: string) { |m| <= |s| && s[..|m|] == m }

  predicate Occurs(z: string, m: string) {
    exists p :: 0 <= p <= |z| && StartsWith(z[p..], m)
  }

  /** The two texts differ at a position that both have. */
  ghost predicate Clash(a: string, b: string) {
    exists i :: 0 <= i < |a| && i < |b| && a[i] != b[i]
  }

  lemma ClashNoPrefix(m: string, n: string, rest: string)
    requires Clash(m, n)
    ensures !StartsWith(n + rest, m)
  {
    var i :| 0 <= i < |m| && i < |n| && m[i] != n[i];
    assert |m| <= |n + rest| ==> (n + rest)[..|m|][i] == n[i];
  }

  /** SQL replace(): the leftmost occurrences that do not overlap. */
  function Replace(s: string, m: string, c: char): string
    requires m != ""
  {
    if s == "" then ""
    else if StartsWith(s, m) then [c] + Replace(s[|m|..], m, c)
    else [s[0]] + Replace(s[1..], m, c)
  }

  // ---------------------------------------------------------------- inserted markers

  /** z with every c written as m and every d as n. */
  function Expand(z: string, c: char, m: string, d: char, n: string): string {
    if z == "" then ""
    else (if z[0] == c then m else if z[0] == d then n else [z[0]]) + Expand(z[1..], c, m, d, n)
  }

  /** No occurrence of m can begin inside an inserted n or m, or end inside one. */
  ghost predicate Separate(m: string, n: string) {
    && m != ""
    && (forall t :: 1 <= t < |m| ==> Clash(m[t..], m))
    && (forall t :: 1 <= t < |m| ==> Clash(m[t..], n))
    && (forall q :: 0 <= q < |n| ==> Clash(m, n[q..]))
  }

  /** What continues a marker after an ordinary character is itself ordinary text. */
  lemma {:induction false} TailIsOrdinary(z: string, c: char, m: string, d: char, n: string, t: nat)
    requires Separate(m, n) && 1 <= t <= |m|
    requires StartsWith(Expand(z, c, m, d, n), m[t..])
    ensures StartsWith(z, m[t..])
    decreases |m| - t
  {
    hide Clash, Expand;
    var e := Expand(z, c, m, d, n);
    if t < |m| {
      assert e != "";
      if z == "" {
        ExpandEmpty(c, m, d, n);
        assert false;
      }
      var f := Expand(z[1..], c, m, d, n);
      assert e == (if z[0] == c then m else if z[0] == d then n else [z[0]]) + f by { ExpandFirst(z, c, m, d, n); }
      if z[0] == c {
        ClashNoPrefix(m[t..], m, f);
        assert false;
      } else if z[0] == d {
        ClashNoPrefix(m[t..], n, f);
        assert false;
      } else {
        assert e[..|m[t..]|][0] == z[0] && m[t..][0] == m[t];
        PrefixTail(e, m[t..]);
        assert m[t..][1..] == m[t + 1..] && e[1..] == f;
        TailIsOrdinary(z[1..], c, m, d, n, t + 1);
        PrefixCons(z, m[t..]);
      }
    }
  }

  lemma ExpandEmpty(c: char, m: string, d: char, n: string)
    ensures Expand("", c, m, d, n) == ""
  {
  }

  lemma ExpandFirst(z: string, c: char, m: string, d: char, n: string)
    requires z != ""
    ensures Expand(z, c, m, d, n) ==
      (if z[0] == c then m else if z[0] == d then n else [z[0]]) + Expand(z[1..], c, m, d, n)
  {
  }

  lemma PrefixTail(s: string, m: string)
    requires m != "" && StartsWith(s, m)
    ensures s != "" && s[0] == m[0] && StartsWith(s[1..], m[1..])
  {
    assert s[..|m|][0] == s[0];
    assert s[..|m|][1..] == s[1..][..|m| - 1];
  }

  lemma PrefixCons(s: string, m: string)
    requires s != "" && m != "" && s[0] == m[0] && StartsWith(s[1..], m[1..])
    ensures StartsWith(s, m)
  {
    assert s[..|m|] == [s[0]] + s[1..][..|m| - 1];
    assert m == [m[0]] + m[1..];
  }

  /** `replace` walks over an inserted n unchanged. */
  lemma {:induction false} WalkOver(n: string, q: nat, rest: string, m: string, c: char)
    requires m != "" && q <= |n| && forall k :: q <= k < |n| ==> Clash(m, n[k..])
    ensures Replace(n[q..] + rest, m, c) == n[q..] + Replace(rest, m, c)
    decreases |n| - q
  {
    hide Clash;
    if q == |n| {
      assert n[q..] + rest == rest;
    } else {
      var s := n[q..] + rest;
      ClashNoPrefix(m, n[q..], rest);
      assert s[0] == n[q] && s[1..] == n[q + 1..] + rest;
      WalkOver(n, q + 1, rest, m, c);
      assert n[q..] == [n[q]] + n[q + 1..];
    }
  }

  /** Replacing the marker brings c back and leaves everything else. */
  lemma {:induction false} ReplaceRestores(z: string, c: char, m: string, d: char, n: string)
    requires Separate(m, n) && c != d && !Occurs(z, m)
    ensures Replace(Expand(z, c, m, d, n), m, c) == Expand(z, c, [c], d, n)
    decreases |z|
  {
    hide Clash, Occurs;
    if z != "" {
      var y := z[1..];
      var f := Expand(y, c, m, d, n);
      OccursInTail(z, m);
      ReplaceRestores(y, c, m, d, n);
      if z[0] == c {
        assert (m + f)[|m|..] == f && (m + f)[..|m|] == m;
      } else if z[0] == d {
        assert n[0..] == n;
        WalkOver(n, 0, f, m, c);
      } else {
        var e := [z[0]] + f;
        assert e[1..] == f && e[0] == z[0];
        if StartsWith(e, m) {
          PrefixTail(e, m);
          TailIsOrdinary(y, c, m, d, n, 1);
          PrefixCons(z, m);
          OccursAtStart(z, m);
          assert false;
        }
      }
    }
  }

  lemma OccursInTail(z: string, m: string)
    requires z != "" && !Occurs(z, m)
    ensures !Occurs(z[1..], m)
  {
    forall p | 0 <= p <= |z[1..]| ensures !StartsWith(z[1..][p..], m) {
      assert z[1..][p..] == z[p + 1..];
    }
  }

  lemma OccursAtStart(z: string, m: string)
    requires StartsWith(z, m)
    ensures Occurs(z, m)
  {
    assert z[0..] == z;
  }

  lemma {:induction false} ExpandSame(z: string, c: char, d: char)
    ensures Expand(z, c, [c], d, [d]) == z
    decreases |z|
  {
    if z != "" { ExpandSame(z[1..], c, d); }
  }

  lemma {:induction false} ExpandSwap(z: string, c: char, m: string, d: char, n: string)
    requires c != d
    ensures Expand(z, c, m, d, n) == Expand(z, d, n, c, m)
    decreases |z|
  {
    if z != "" { ExpandSwap(z[1..], c, m, d, n); }
  }

  /** The marker of a character that does not occur is never used. */
  lemma {:induction false} ExpandUnused(z: string, c: char, m: string, k: string, d: char, n: string)
    requires c !in z
    ensures Expand(z, c, m, d, n) == Expand(z, c, k, d, n)
    decreases |z|
  {
    if z != "" { ExpandUnused(z[1..], c, m, k, d, n); }
  }

  // ---------------------------------------------------------------- unused_string

  function Digit(d: nat): char
    requires d < 10
  {
    '0' + d as char
  }

  function Dec(i: nat): string {
    if i < 10 then [Digit(i)] else Dec(i / 10) + [Digit(i % 10)]
  }

  function Value(s: string): int {
    if s == "" then 0 else 10 * Value(s[..|s| - 1]) + (s[|s| - 1] as int - '0' as int)
  }

  lemma {:induction false} DecValue(i: nat)
    ensures Value(Dec(i)) == i
    ensures Dec(i) != "" && forall k :: 0 <= k < |Dec(i)| ==> '0' <= Dec(i)[k] <= '9'
  {
    if i >= 10 {
      DecValue(i / 10);
      assert Dec(i)[..|Dec(i)| - 1] == Dec(i / 10);
    } else {
      assert Dec(i)[..0] == "";
      assert Value("") == 0;
    }
  }

  /** The i-th made-up string. */
  function Candidate(zA: string, i: nat): string { "(" + zA + Dec(i) + ")" }

  lemma SeventhCandidate()
    ensures Candidate("\\n", 7) == "(\\n7)" && Candidate("\\r", 12) == "(\\r12)"
  {
    assert Dec(7) == "7" && Dec(1) == "1" && Dec(12) == "12";
  }

  /** Two texts without c, each followed by c, that begin the same string are the same. */
  lemma {:induction false} UpTo(s: string, a: string, b: string, c: char)
    requires c !in a && c !in b && StartsWith(s, a + [c]) && StartsWith(s, b + [c])
    ensures a == b
  {
    assert forall k :: 0 <= k < |a| ==> a[k] == s[..|a| + 1][k];
    assert forall k :: 0 <= k < |b| ==> b[k] == s[..|b| + 1][k];
    assert (a + [c])[|a|] == s[..|a| + 1][|a|];
    assert (b + [c])[|b|] == s[..|b| + 1][|b|];
  }

  lemma StripPrefix(s: string, a: string, b: string)
    requires StartsWith(s, a + b)
    ensures |a| <= |s| && StartsWith(s[|a|..], b)
  {
    assert s[..|a + b|][|a|..] == s[|a|..][..|b|];
    assert (a + b)[|a|..] == b;
  }

  /** Distinct candidates never begin at the same position. */
  lemma CandidatesDiffer(s: string, zA: string, i: nat, j: nat)
    requires StartsWith(s, Candidate(zA, i)) && StartsWith(s, Candidate(zA, j))
    ensures i == j
  {
    hide Dec, Value;
    DecValue(i);
    DecValue(j);
    var p := "(" + zA;
    assert Candidate(zA, i) == p + (Dec(i) + [')']) && Candidate(zA, j) == p + (Dec(j) + [')']);
    StripPrefix(s, p, Dec(i) + [')']);
    StripPrefix(s, p, Dec(j) + [')']);
    UpTo(s[|p|..], Dec(i), Dec(j), ')');
  }

  lemma {:induction false} SetBound(s: set<nat>, n: nat)
    requires forall x :: x in s ==> x < n
    ensures |s| <= n
    decreases n
  {
    if n == 0 {
      assert s == {};
    } else {
      var t := s - {n - 1};
      SetBound(t, n - 1);
      if n - 1 in s { assert s == t + {n - 1}; } else { assert s == t; }
    }
  }

  /** The first k candidates occur in z, at the positions in `at`, one each. */
  ghost predicate Places(at: set<nat>, z: string, zA: string, k: nat) {
    |at| == k && forall p :: p in at ==> p < |z| && exists j: nat :: j < k && StartsWith(z[p..], Candidate(zA, j))
  }

  /** One more candidate takes one more position, so there are at most |z|. */
  lemma OneMore(at: set<nat>, z: string, zA: string, k: nat) returns (more: set<nat>)
    requires Places(at, z, zA, k) && Occurs(z, Candidate(zA, k))
    ensures Places(more, z, zA, k + 1) && k + 1 <= |z|
  {
    hide Candidate, StartsWith;
    var q :| 0 <= q <= |z| && StartsWith(z[q..], Candidate(zA, k));
    assert q < |z| by { CandidateLength(z[q..], zA, k); }
    if q in at {
      var j: nat :| j < k && StartsWith(z[q..], Candidate(zA, j));
      CandidatesDiffer(z[q..], zA, k, j);
      assert false;
    }
    more := at + {q};
    forall p | p in more ensures exists j: nat :: j < k + 1 && StartsWith(z[p..], Candidate(zA, j)) {
      if p == q { assert k < k + 1 && StartsWith(z[p..], Candidate(zA, k)); } else {
        var j: nat :| j < k && StartsWith(z[p..], Candidate(zA, j));
        assert j < k + 1 && StartsWith(z[p..], Candidate(zA, j));
      }
    }
    SetBound(more, |z|);
  }

  lemma CandidateLength(s: string, zA: string, k: nat)
    requires StartsWith(s, Candidate(zA, k))
    ensures s != ""
  {
  }

  /** The first candidate that does not occur. */
  ghost predicate FirstUnused(z: string, zA: string, k: nat) {
    !Occurs(z, Candidate(zA, k)) && forall j: nat :: j < k ==> Occurs(z, Candidate(zA, j))
  }

  /** unused_string: the search for a made-up string ends within |z| + 1 tries. */
  method UnusedString(z: string, zA: string, zB: string) returns (m: string, tries: nat)
    ensures !Occurs(z, m) && tries <= |z| + 1
    ensures tries == 0 ==> m == if Occurs(z, zA) then zB else zA
    ensures tries > 0 ==>
      Occurs(z, zA) && Occurs(z, zB) && m == Candidate(zA, tries - 1) && FirstUnused(z, zA, tries - 1)
  {
    hide Candidate, Occurs, Places;
    if !Occurs(z, zA) { return zA, 0; }
    if !Occurs(z, zB) { return zB, 0; }
    ghost var at: set<nat> := {};
    assert Places(at, z, zA, 0) by { NoPlaces(z, zA); }
    m := Candidate(zA, 0);
    tries := 1;
    while Occurs(z, m)
      invariant 0 < tries <= |z| + 1 && m == Candidate(zA, tries - 1) && Places(at, z, zA, tries - 1)
      invariant forall j: nat :: j < tries - 1 ==> Occurs(z, Candidate(zA, j))
      decreases |z| + 1 - tries
    {
      at := OneMore(at, z, zA, tries - 1);
      m := Candidate(zA, tries);
      tries := tries + 1;
    }
  }

  lemma NoPlaces(z: string, zA: string)
    ensures Places({}, z, zA, 0)
  {
  }

  // ---------------------------------------------------------------- the markers in use

  /** A marker for a newline (letter n, octal 012) or a carriage return (letter r, octal 015). */
  ghost predicate IsMarker(m: string, letter: char, octal: string) {
    m == ['\\', letter] || m == "\\" + octal || exists i: nat :: m == Candidate(['\\', letter], i)
  }

  /** One backslash, at position b; only an opening parenthesis before it, neither of the two after it. */
  ghost predicate Shape(m: string, b: nat) {
    && b <= 1 && b + 2 <= |m| && m[b] == '\\' && (b == 1 ==> m[0] == '(')
    && (forall k :: b < k < |m| ==> m[k] != '\\' && m[k] != '(' && m[k] != '\r' && m[k] != '\'')
  }

  /** A marker's shape and the characters that tell the two kinds apart. */
  lemma MarkerShape(m: string, letter: char, octal: string) returns (b: nat)
    requires IsMarker(m, letter, octal) && letter in "nr" && octal in ["012", "015"]
    ensures Shape(m, b) && (m[b + 1] == letter || (b == 0 && m == "\\" + octal))
  {
    hide Dec;
    if m == ['\\', letter] || m == "\\" + octal {
      b := 0;
    } else {
      b := 1;
      var i: nat :| m == Candidate(['\\', letter], i);
      DecValue(i);
      assert m == ['(', '\\', letter] + Dec(i) + [')'];
      forall k | 1 < k < |m| ensures m[k] != '\\' && m[k] != '(' && m[k] != '\r' && m[k] != '\'' {
        if 3 <= k < |m| - 1 { assert m[k] == Dec(i)[k - 3]; }
      }
    }
  }

  lemma ShapesSeparate(m: string, b: nat, n: string, e: nat)
    requires Shape(m, b) && Shape(n, e) && Clash(m[b..], n[e..])
    ensures Separate(m, n)
  {
    var j :| 0 <= j < |m[b..]| && j < |n[e..]| && m[b..][j] != n[e..][j];
    forall t | 1 <= t < |m| ensures Clash(m[t..], m) && Clash(m[t..], n) {
      assert m[t..][0] == m[t];
      if t == b && e == 0 { assert n[e..] == n; }
    }
    forall q | 0 <= q < |n| ensures Clash(m, n[q..]) {
      assert n[q..][0] == n[q];
      if q == e && b == 0 { assert m[b..] == m; }
      if q < e && b == 1 {
        assert n[q..] == n;
        assert m[b..][j] == m[1 + j] && n[e..][j] == n[1 + j];
      }
    }
  }

  /** A marker for a carriage return never meets one for a newline. */
  lemma MarkersSeparate(cr: string, nl: string)
    requires IsMarker(cr, 'r', "015") && IsMarker(nl, 'n', "012")
    ensures Separate(cr, nl)
  {
    hide IsMarker, Separate;
    var b := MarkerShape(cr, 'r', "015");
    var e := MarkerShape(nl, 'n', "012");
    if cr[b + 1] == 'r' || nl[e + 1] == 'n' {
      assert cr[b..][1] != nl[e..][1];
    } else {
      assert cr[b..][3] != nl[e..][3];
    }
    ShapesSeparate(cr, b, nl, e);
  }

  /** A marker for a newline never meets a plain carriage return. */
  lemma MarkerAlone(nl: string)
    requires IsMarker(nl, 'n', "012")
    ensures Separate(nl, "\r")
  {
    hide IsMarker;
    var b := MarkerShape(nl, 'n', "012");
    forall t | 1 <= t < |nl| ensures Clash(nl[t..], nl) && Clash(nl[t..], "\r") {
      assert nl[t..][0] == nl[t];
    }
    forall q | 0 <= q < 1 ensures Clash(nl, "\r"[q..]) {
      assert "\r"[q..][0] == '\r';
    }
  }

  // ---------------------------------------------------------------- reading the text back

  /** The rest of a string literal, after its opening quote: its value and what follows it. */
  function ReadLiteral(s: string): Option<(string, string)> {
    if s == "" then None
    else if s[0] != '\'' then
      match ReadLiteral(s[1..])
      case None => None
      case Some(p) => Some(([s[0]] + p.0, p.1))
    else if |s| > 1 && s[1] == '\'' then
      match ReadLiteral(s[2..])
      case None => None
      case Some(p) => Some((['\''] + p.0, p.1))
    else Some(("", s[1..]))
  }

  lemma {:induction false} LiteralShrinks(s: string)
    ensures ReadLiteral(s).Some? ==> |ReadLiteral(s).value.1| < |s|
    decreases |s|
  {
    if s != "" {
      if s[0] != '\'' { LiteralShrinks(s[1..]); }
      else if |s| > 1 && s[1] == '\'' { LiteralShrinks(s[2..]); }
    }
  }

  /** The value of an expression made of literals, replace(_, literal, char(13 or 10)), and what follows it. */
  function Eval(s: string): Option<(string, string)>
    decreases |s|
  {
    if StartsWith(s, "'") then ReadLiteral(s[1..])
    else if StartsWith(s, "replace(") then
      match Eval(s[8..])
      case None => None
      case Some(p) => EvalReplace(p.0, p.1)
    else None
  }

  /** The second and third argument of replace(), applied to the value of the first. */
  function EvalReplace(v: string, s: string): Option<(string, string)> {
    if !StartsWith(s, ",'") then None
    else
      match ReadLiteral(s[2..])
      case None => None
      case Some(p) =>
        if p.0 == "" then None
        else if StartsWith(p.1, ",char(13))") then Some((Replace(v, p.0, '\r'), p.1[10..]))
        else if StartsWith(p.1, ",char(10))") then Some((Replace(v, p.0, '\n'), p.1[10..]))
        else None
  }

  /** Wherever `out` stands before something other than a quote, its value is z. */
  ghost predicate Means(out: string, z: string) {
    forall rest: string :: !StartsWith(rest, "'") ==> Eval(out + rest) == Some((z, rest))
  }

  /** Every quote doubled. */
  function Double(s: string): string {
    if s == "" then "" else (if s[0] == '\'' then "''" else [s[0]]) + Double(s[1..])
  }

  lemma {:induction false} ReadDoubled(b: string, rest: string)
    requires !StartsWith(rest, "'")
    ensures ReadLiteral(Double(b) + "'" + rest) == Some((b, rest))
    decreases |b|
  {
    if b == "" {
      var s := "'" + rest;
      assert Double(b) + "'" + rest == s && s[0] == '\'' && s[1..] == rest;
      assert |s| > 1 ==> s[1] == rest[0] && rest[..1] == [rest[0]];
    } else {
      ReadDoubled(b[1..], rest);
      var d := if b[0] == '\'' then "''" else [b[0]];
      var t := Double(b[1..]) + "'" + rest;
      assert Double(b) + "'" + rest == d + t;
      var s := d + t;
      assert s[|d|..] == t && s[0] == b[0];
      assert b == [b[0]] + b[1..];
      if b[0] == '\'' {
        assert s[1] == '\'' && s[2..] == t;
        assert ReadLiteral(s) == Some((['\''] + b[1..], rest));
      } else {
        assert ReadLiteral(s) == Some(([b[0]] + b[1..], rest));
      }
    }
  }

  lemma LiteralMeans(b: string)
    ensures Means(Quoted(Double(b)), b)
  {
    forall rest: string | !StartsWith(rest, "'") ensures Eval(Quoted(Double(b)) + rest) == Some((b, rest)) {
      var s := "'" + Double(b) + "'" + rest;
      assert s[..1] == "'" && s[1..] == Double(b) + "'" + rest;
      ReadDoubled(b, rest);
    }
  }

  lemma {:induction false} DoublePlain(m: string)
    requires '\'' !in m
    ensures Double(m) == m
    decreases |m|
  {
    if m != "" { DoublePlain(m[1..]); }
  }

  function Opener(on: bool): string { if on then "replace(" else "" }

  function Closer(on: bool, m: string, code: string): string {
    if on then ",'" + m + "'" + ",char(" + code + "))" else ""
  }

  function Quoted(b: string): string { "'" + b + "'" }

  /** The text of a replace() call around an expression. */
  function Around(e: string, m: string, code: string): string {
    Opener(true) + e + Closer(true, m, code)
  }

  lemma CloserThen(m: string, code: string, rest: string)
    ensures Closer(true, m, code) + rest == ",'" + m + "'" + (",char(" + code + "))" + rest)
  {
  }

  lemma Regroup3(a: string, b: string, c: string, d: string)
    ensures a + b + c + d == a + (b + (c + d))
  {
  }

  lemma AroundThen(e: string, m: string, code: string, rest: string)
    ensures Around(e, m, code) + rest == "replace(" + (e + (",'" + m + "'" + (",char(" + code + "))" + rest)))
  {
    hide Closer;
    CloserThen(m, code, rest);
    Regroup3("replace(", e, Closer(true, m, code), rest);
  }

  lemma ReplaceMeans(e: string, v: string, m: string, c: char)
    requires Means(e, v) && m != "" && '\'' !in m && (c == '\r' || c == '\n')
    ensures Means(Around(e, m, if c == '\r' then "13" else "10"), Replace(v, m, c))
  {
    hide Means, Eval, Replace, ReadLiteral, EvalReplace, Around;
    var code := if c == '\r' then "13" else "10";
    forall rest: string | !StartsWith(rest, "'")
      ensures Eval(Around(e, m, code) + rest) == Some((Replace(v, m, c), rest))
    {
      AroundThen(e, m, code, rest);
      EvalAround(e, v, m, c, ",'" + m + "'" + (",char(" + code + "))" + rest), rest);
    }
    MeansIntro(Around(e, m, code), Replace(v, m, c));
  }

  lemma MeansIntro(out: string, z: string)
    requires forall rest: string :: !StartsWith(rest, "'") ==> Eval(out + rest) == Some((z, rest))
    ensures Means(out, z)
  {
  }

  lemma EvalAround(e: string, v: string, m: string, c: char, args: string, rest: string)
    requires Means(e, v) && m != "" && '\'' !in m && (c == '\r' || c == '\n')
    requires args == ",'" + m + "'" + (",char(" + (if c == '\r' then "13" else "10") + "))" + rest)
    ensures Eval("replace(" + (e + args)) == Some((Replace(v, m, c), rest))
  {
    hide Replace, EvalReplace;
    var s := "replace(" + (e + args);
    assert s[..8] == "replace(" && s[8..] == e + args;
    assert s[0] == 'r' && s[..1] == "r";
    assert args[0] == ',' && args[..1] == ",";
    assert Eval(e + args) == Some((v, args));
    EvalArgs(v, m, c, args, rest);
  }

  lemma EvalArgs(v: string, m: string, c: char, args: string, rest: string)
    requires m != "" && '\'' !in m && (c == '\r' || c == '\n')
    requires args == ",'" + m + "'" + (",char(" + (if c == '\r' then "13" else "10") + "))" + rest)
    ensures EvalReplace(v, args) == Some((Replace(v, m, c), rest))
  {
    hide Replace, ReadLiteral;
    var tail := ",char(" + (if c == '\r' then "13" else "10") + "))" + rest;
    assert args[..2] == ",'" && args[2..] == m + "'" + tail;
    assert tail[..1] == ",";
    DoublePlain(m);
    ReadDoubled(m, tail);
    assert tail[..10] == (if c == '\r' then ",char(13))" else ",char(10))");
    assert tail[10..] == rest;
    assert tail[6] == '1' && tail[7] == (if c == '\r' then '3' else '0');
    if c == '\n' { assert tail[..10][7] != ",char(13))"[7]; }
  }

  // ---------------------------------------------------------------- the printer

  /** The characters printed between the outer quotes. */
  function Body(z: string, nl: string, cr: string): string {
    if z == "" then ""
    else
      (if z[0] == '\n' then nl else if z[0] == '\r' then cr else if z[0] == '\'' then "''" else [z[0]])
      + Body(z[1..], nl, cr)
  }

  lemma {:induction false} DoubleConcat(a: string, b: string)
    ensures Double(a + b) == Double(a) + Double(b)
    decreases |a|
  {
    if a == "" {
      assert a + b == b;
    } else {
      DoubleConcat(a[1..], b);
      assert (a + b)[1..] == a[1..] + b;
    }
  }

  lemma {:induction false} BodyIsDoubled(z: string, nl: string, cr: string)
    requires '\'' !in nl && '\'' !in cr
    ensures Body(z, nl, cr) == Double(Expand(z, '\r', cr, '\n', nl))
    decreases |z|
  {
    if z != "" {
      BodyIsDoubled(z[1..], nl, cr);
      var f := Expand(z[1..], '\r', cr, '\n', nl);
      if z[0] == '\n' {
        DoubleConcat(nl, f);
        DoublePlain(nl);
      } else if z[0] == '\r' {
        DoubleConcat(cr, f);
        DoublePlain(cr);
      } else {
        assert ([z[0]] + f)[1..] == f;
      }
    }
  }

  /** What is printed for z with the two markers. */
  function Printed(z: string, nl: string, cr: string): string {
    Opener('\n' in z) + Opener('\r' in z) + Quoted(Body(z, nl, cr)) + Closer('\r' in z, cr, "13")
      + Closer('\n' in z, nl, "10")
  }

  function Within(on: bool, e: string, m: string, code: string): string {
    if on then Around(e, m, code) else e
  }

  lemma Outside(on: bool, e: string, m: string, code: string)
    ensures Within(on, e, m, code) == Opener(on) + e + Closer(on, m, code)
  {
  }

  lemma Regroup(a: string, b: string, e: string, x: string, y: string)
    ensures a + (b + e + x) + y == a + b + e + x + y
  {
  }

  lemma PrintedIsNested(z: string, nl: string, cr: string)
    ensures Printed(z, nl, cr) == Within('\n' in z, Within('\r' in z, Quoted(Body(z, nl, cr)), cr, "13"), nl, "10")
  {
    hide Body, Opener, Closer, Quoted, Within;
    var e := Quoted(Body(z, nl, cr));
    Outside('\r' in z, e, cr, "13");
    Outside('\n' in z, Within('\r' in z, e, cr, "13"), nl, "10");
    Regroup(Opener('\n' in z), Opener('\r' in z), e, Closer('\r' in z, cr, "13"), Closer('\n' in z, nl, "10"));
  }

  ghost predicate GoodMarkers(z: string, nl: string, cr: string) {
    IsMarker(nl, 'n', "012") && IsMarker(cr, 'r', "015") && !Occurs(z, nl) && !Occurs(z, cr)
  }

  lemma MarkerPlain(m: string, letter: char, octal: string)
    requires IsMarker(m, letter, octal) && letter in "nr" && octal in ["012", "015"]
    ensures '\'' !in m && m != ""
  {
    hide IsMarker;
    var b := MarkerShape(m, letter, octal);
    assert forall k :: 0 <= k < |m| ==> m[k] != '\'';
  }

  /** Evaluating the printed expression gives the string back. */
  lemma PrintedMeans(z: string, nl: string, cr: string)
    requires GoodMarkers(z, nl, cr)
    ensures Means(Printed(z, nl, cr), z)
  {
    hide IsMarker, Means, Occurs, Separate, Around, Body, Expand, Replace, Double, Quoted, Printed;
    PrintedIsNested(z, nl, cr);
    MarkerPlain(nl, 'n', "012");
    MarkerPlain(cr, 'r', "015");
    BodyIsDoubled(z, nl, cr);
    var v := Expand(z, '\r', cr, '\n', nl);
    LiteralMeans(v);
    var w := Expand(z, '\r', "\r", '\n', nl);
    if '\r' in z {
      MarkersSeparate(cr, nl);
      ReplaceRestores(z, '\r', cr, '\n', nl);
      ReplaceMeans(Quoted(Body(z, nl, cr)), v, cr, '\r');
    } else {
      ExpandUnused(z, '\r', cr, "\r", '\n', nl);
    }
    var f := Within('\r' in z, Quoted(Body(z, nl, cr)), cr, "13");
    assert Means(f, w);
    ExpandSwap(z, '\r', "\r", '\n', nl);
    ExpandSame(z, '\n', '\r');
    if '\n' in z {
      MarkerAlone(nl);
      ReplaceRestores(z, '\n', nl, '\r', "\r");
      ReplaceMeans(f, w, nl, '\n');
    } else {
      ExpandUnused(z, '\n', nl, "\n", '\r', "\r");
    }
  }

  predicate Special(c: char) { c == '\n' || c == '\r' || c == '\'' }

  lemma {:induction false} PlainRun(z: string, i: nat, nl: string, cr: string)
    requires i <= |z| && forall k :: 0 <= k < i ==> !Special(z[k])
    ensures Body(z, nl, cr) == z[..i] + Body(z[i..], nl, cr)
    decreases i
  {
    if i > 0 {
      PlainRun(z[1..], i - 1, nl, cr);
      assert z[1..][i - 1..] == z[i..];
      assert z[..i] == [z[0]] + z[1..][..i - 1];
    } else {
      assert z[0..] == z;
    }
  }

  /** The scan for the next special character. */
  method NextSpecial(z: string, from: nat) returns (i: nat)
    requires from <= |z|
    ensures from <= i <= |z| && (forall k :: from <= k < i ==> !Special(z[k])) && (i < |z| ==> Special(z[i]))
  {
    i := from;
    while i < |z| && !Special(z[i])
      invariant from <= i <= |z| && forall k :: from <= k < i ==> !Special(z[k])
    {
      i := i + 1;
    }
  }

  lemma RunThen(z: string, pos: nat, i: nat, nl: string, cr: string)
    requires pos <= i <= |z| && forall k :: pos <= k < i ==> !Special(z[k])
    ensures Body(z[pos..], nl, cr) == z[pos..i] + Body(z[i..], nl, cr)
  {
    hide Body, Special;
    var y := z[pos..];
    PlainRun(y, i - pos, nl, cr);
    assert y[..i - pos] == z[pos..i] && y[i - pos..] == z[i..];
  }

  function Piece(c: char, nl: string, cr: string): string {
    if c == '\n' then nl else if c == '\r' then cr else "''"
  }

  lemma SpecialThen(z: string, i: nat, nl: string, cr: string)
    requires i < |z| && Special(z[i])
    ensures Body(z[i..], nl, cr) == Piece(z[i], nl, cr) + Body(z[i + 1..], nl, cr)
  {
    assert z[i..][0] == z[i] && z[i..][1..] == z[i + 1..];
  }

  lemma Join(a: string, b: string, c: string)
    ensures a + (b + c) == (a + b) + c
  {
  }

  /** The main loop of output_quoted_escaped_string. */
  method WriteBody(z: string, nl: string, cr: string) returns (out: string)
    ensures out == Body(z, nl, cr)
  {
    hide Body;
    out := "";
    var pos := 0;
    assert z[0..] == z;
    assert out + Body(z, nl, cr) == Body(z, nl, cr);
    while pos < |z|
      invariant pos <= |z| && out + Body(z[pos..], nl, cr) == Body(z, nl, cr)
    {
      var i := NextSpecial(z, pos);
      RunThen(z, pos, i, nl, cr);
      Join(out, z[pos..i], Body(z[i..], nl, cr));
      out := out + z[pos..i];
      pos := i;
      if i < |z| {
        SpecialThen(z, i, nl, cr);
        Join(out, Piece(z[i], nl, cr), Body(z[i + 1..], nl, cr));
        if z[i] == '\'' {
          out := out + "''";
        } else if z[i] == '\n' {
          out := out + nl;
        } else {
          out := out + cr;
        }
        pos := i + 1;
      }
    }
    assert z[pos..] == "";
    assert out + Body("", nl, cr) == out by { EmptyBody(nl, cr); }
  }

  lemma EmptyBody(nl: string, cr: string)
    ensures Body("", nl, cr) == ""
  {
  }

  /** output_quoted_escaped_string: the printed text evaluates to z. */
  method OutputQuotedEscaped(z: string) returns (out: string)
    ensures Means(out, z)
    ensures '\n' !in out && '\r' !in out
    ensures (forall k :: 0 <= k < |z| ==> z[k] != '\'' && z[k] != '\n' && z[k] != '\r') ==> out == "'" + z + "'"
  {
    hide IsMarker, Means, Occurs, Body, Opener, Closer, Quoted;
    var i := NextSpecial(z, 0);
    if i == |z| {
      out := Quoted(z);
      NothingSpecial(z);
      PlainHasNoBreaks(z);
      return;
    }
    var nNL, nCR := '\n' in z, '\r' in z;
    var nl, tries := UnusedString(z, "\\n", "\\012");
    MarkerChosen(z, nl, tries, 'n', "012");
    out := Opener(nNL);
    var cr, tries' := UnusedString(z, "\\r", "\\015");
    MarkerChosen(z, cr, tries', 'r', "015");
    out := out + Opener(nCR);
    var body := WriteBody(z, nl, cr);
    out := out + Quoted(body) + Closer(nCR, cr, "13") + Closer(nNL, nl, "10");
    PrintedMeans(z, nl, cr);
    PrintedHasNoBreaks(z, nl, cr);
  }

  /** Neither newline nor carriage return. */
  predicate NoBreaks(s: string) { forall k :: 0 <= k < |s| ==> s[k] != '\n' && s[k] != '\r' }

  lemma PlainHasNoBreaks(z: string)
    requires forall k :: 0 <= k < |z| ==> !Special(z[k])
    ensures '\n' !in Quoted(z) && '\r' !in Quoted(z) && Quoted(z) == "'" + z + "'"
  {
  }

  lemma NoBreaksJoin(a: string, b: string)
    requires NoBreaks(a) && NoBreaks(b)
    ensures NoBreaks(a + b)
  {
  }

  lemma {:induction false} BodyHasNoBreaks(z: string, nl: string, cr: string)
    requires NoBreaks(nl) && NoBreaks(cr)
    ensures NoBreaks(Body(z, nl, cr))
    decreases |z|
  {
    if z != "" {
      BodyHasNoBreaks(z[1..], nl, cr);
      NoBreaksJoin(if z[0] == '\n' then nl else if z[0] == '\r' then cr else if z[0] == '\'' then "''" else [z[0]],
        Body(z[1..], nl, cr));
    }
  }

  lemma MarkerHasNoBreaks(m: string, letter: char, octal: string)
    requires IsMarker(m, letter, octal) && letter in "nr" && octal in ["012", "015"]
    ensures NoBreaks(m)
  {
    hide Dec;
    if !(m == ['\\', letter] || m == "\\" + octal) {
      var i: nat :| m == Candidate(['\\', letter], i);
      DecValue(i);
      assert m == ['(', '\\', letter] + Dec(i) + [')'];
      forall k | 0 <= k < |m| ensures m[k] != '\n' && m[k] != '\r' {
        if 3 <= k < |m| - 1 { assert m[k] == Dec(i)[k - 3]; }
      }
    }
  }

  /** Hiding line breaks is what the printer is for. */
  lemma PrintedHasNoBreaks(z: string, nl: string, cr: string)
    requires GoodMarkers(z, nl, cr)
    ensures '\n' !in Printed(z, nl, cr) && '\r' !in Printed(z, nl, cr)
  {
    hide IsMarker, Occurs, Body;
    MarkerHasNoBreaks(nl, 'n', "012");
    MarkerHasNoBreaks(cr, 'r', "015");
    BodyHasNoBreaks(z, nl, cr);
    var a, b, q := Opener('\n' in z), Opener('\r' in z), Quoted(Body(z, nl, cr));
    var x, y := Closer('\r' in z, cr, "13"), Closer('\n' in z, nl, "10");
    assert NoBreaks(a) && NoBreaks(b) && NoBreaks(q) && NoBreaks(x) && NoBreaks(y);
    hide Opener, Closer, Quoted;
    NoBreaksJoin(a, b);
    NoBreaksJoin(a + b, q);
    NoBreaksJoin(a + b + q, x);
    NoBreaksJoin(a + b + q + x, y);
  }

  lemma MarkerChosen(z: string, m: string, tries: nat, letter: char, octal: string)
    requires tries == 0 ==> m == ['\\', letter] || m == "\\" + octal
    requires tries > 0 ==> m == Candidate(['\\', letter], tries - 1)
    ensures IsMarker(m, letter, octal)
  {
  }

  lemma NothingSpecial(z: string)
    requires forall k :: 0 <= k < |z| ==> !Special(z[k])
    ensures Means(Quoted(z), z)
  {
    hide Means, Quoted;
    DoublePlain(z);
    LiteralMeans(z);
  }

  // ---------------------------------------------------------------- output_quoted_string

  /** Quotes doubled, nothing else hidden. */
  method OutputQuoted(z: string) returns (out: string)
    ensures Means(out, z) && out == "'" + Double(z) + "'"
  {
    hide Double, Means;
    var body := "";
    var pos := 0;
    assert z[0..] == z;
    assert body + Double(z) == Double(z);
    while pos < |z|
      invariant pos <= |z| && body + Double(z[pos..]) == Double(z)
    {
      var i := pos;
      while i < |z| && z[i] != '\''
        invariant pos <= i <= |z| && forall k :: pos <= k < i ==> z[k] != '\''
      {
        i := i + 1;
      }
      DoubleRun(z, pos, i);
      Join(body, z[pos..i], Double(z[i..]));
      body := body + z[pos..i];
      pos := i;
      if i < |z| {
        DoubleQuote(z, i);
        Join(body, "''", Double(z[i + 1..]));
        body := body + "''";
        pos := i + 1;
      }
    }
    assert z[pos..] == "";
    assert body + Double("") == body by { DoublePlain(""); }
    out := Quoted(body);
    LiteralMeans(z);
  }

  lemma DoubleRun(z: string, pos: nat, i: nat)
    requires pos <= i <= |z| && forall k :: pos <= k < i ==> z[k] != '\''
    ensures Double(z[pos..]) == z[pos..i] + Double(z[i..])
  {
    hide Double;
    assert z[pos..] == z[pos..i] + z[i..];
    DoubleConcat(z[pos..i], z[i..]);
    DoublePlain(z[pos..i]);
  }

  lemma DoubleQuote(z: string, i: nat)
    requires i < |z| && z[i] == '\''
    ensures Double(z[i..]) == "''" + Double(z[i + 1..])
  {
    assert z[i..][0] == z[i] && z[i..][1..] == z[i + 1..];
  }
}
