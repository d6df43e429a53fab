/** testcase_glob (sqlite/shell.c): a backtracking matcher against what its pattern means. */
module Glob {
  import opened Core
  import opened CString
  import opened GlobList

  // ---------------------------------------------------------------- patterns

  /** A range of characters in a list. */
  datatype Item = Item(lo: int, hi: int)

  datatype Elem =
    | Lit(c: char)
    | One
    | Star
    | Class(invert: bool, items: seq<Item>)
    | Digits
    | Space
    | Unclosed

  predicate InItems(c: int, items: seq<Item>) { exists k :: 0 <= k < |items| && items[k].lo <= c <= items[k].hi }

  predicate IsDigit(c: char) { '0' <= c <= '9' }

  function DigitLen(z: string): (n: nat)
    ensures n <= |z|
  {
    if z == "" || !IsDigit(z[0]) then 0 else 1 + DigitLen(z[1..])
  }

  /** z without a sign that stands before a digit. */
  function Unsigned(z: string): string {
    if |z| > 1 && (z[0] == '-' || z[0] == '+') && IsDigit(z[1]) then z[1..] else z
  }

  predicate AllSpace(z: string) { forall k :: 0 <= k < |z| ==> IsSpace(z[k]) }

  /** What the code looks for: a star stands for some stretch of the text, a number or a span of white space for
      the longest one, and white space at the end of the text is ignored. */
  ghost predicate Matches(es: seq<Elem>, z: string)
    decreases |es|
  {
    if es == [] then AllSpace(z)
    else match es[0]
      case Star => exists k :: 0 <= k <= |z| && Matches(es[1..], z[k..])
      case One => z != "" && Matches(es[1..], z[1..])
      case Lit(c) => z != "" && z[0] == c && Matches(es[1..], z[1..])
      case Class(invert, items) => z != "" && InItems(Code(z[0]), items) != invert && Matches(es[1..], z[1..])
      case Digits => DigitLen(Unsigned(z)) > 0 && Matches(es[1..], Unsigned(z)[DigitLen(Unsigned(z))..])
      case Space => SpaceLen(z) > 0 && Matches(es[1..], z[SpaceLen(z)..])
      case Unclosed => false
  }

  /** The list of a class up to its closing bracket, and what follows; `prior` is the character that a
      dash would continue, 0 when there is none. */
  function Items(p: string, prior: int): (r: Option<(seq<Item>, string)>)
    ensures r.Some? ==> |r.value.1| < |p|
    decreases |p|
  {
    if p == "" then None
    else if p[0] == ']' then Some(([], p[1..]))
    else if p[0] == '-' && |p| > 1 && p[1] != ']' && prior > 0 then
      match Items(p[2..], 0)
      case None => None
      case Some(q) => Some(([Item(prior, Code(p[1]))] + q.0, q.1))
    else
      match Items(p[1..], Code(p[0]))
      case None => None
      case Some(q) => Some(([Item(Code(p[0]), Code(p[0]))] + q.0, q.1))
  }

  /** A caret negates the list. */
  function Inverted(p: string): bool { p != "" && p[0] == '^' }

  function AfterCaret(p: string): string { if Inverted(p) then p[1..] else p }

  /** A closing bracket that comes first belongs to the list. */
  function List(q: string): (r: Option<(seq<Item>, string)>)
    ensures r.Some? ==> |r.value.1| < |q|
  {
    if q != "" && q[0] == ']' then
      match Items(q[1..], 0)
      case None => None
      case Some(r) => Some(([Item(Code(']'), Code(']'))] + r.0, r.1))
    else Items(q, 0)
  }

  /** The elements of a pattern. After a run of stars and question marks that begins with a star (`run`), every
      character that does not open a class is a literal, for that is how the code reads it. */
  function Parse(p: string, run: bool): seq<Elem>
    decreases |p|
  {
    if p == "" then []
    else if p[0] == '*' then [Star] + Parse(p[1..], true)
    else if p[0] == '?' then [One] + Parse(p[1..], run)
    else if p[0] == '[' then
      match List(AfterCaret(p[1..]))
      case None => [Unclosed]
      case Some(r) => [Class(Inverted(p[1..]), r.0)] + Parse(r.1, false)
    else if run then [Lit(p[0])] + Parse(p[1..], false)
    else if IsSpace(p[0]) then [Space] + Parse(p[1..][SpaceLen(p[1..])..], false)
    else if p[0] == '#' then [Digits] + Parse(p[1..], false)
    else [Lit(p[0])] + Parse(p[1..], false)
  }

  // ---------------------------------------------------------------- the list of a class

  /** The ranges of a list; a range has its first character even when it runs backwards. */
  function Ranges(ps: seq<Piece>): seq<Item> {
    if ps == [] then []
    else
      (match ps[0]
       case Single(c) => [Item(Code(c), Code(c))]
       case Range(lo, hi) => [Item(Code(lo), Code(lo)), Item(Code(lo), Code(hi))])
      + Ranges(ps[1..])
  }

  /** A list of characters as the comment has it: singles and ranges, up to the closing bracket. */
  function ListRead(q: string): (r: Option<(seq<Item>, string)>)
    ensures r.Some? ==> |r.value.1| < |q|
  {
    match Enclosed(q)
    case None => None
    case Some(r) => Some((Ranges(r.0), r.1))
  }

  /** The code's reading, character by character, gives the same. */
  lemma {:induction false} ItemsAreRanges(p: string)
    ensures Items(p, 0) == match Pieces(p) case None => None case Some(r) => Some((Ranges(r.0), r.1))
    decreases |p|
  {
    if p != "" && p[0] != ']' {
      var c := Code(p[0]);
      if |p| > 2 && c > 0 && p[1] == '-' && p[2] != ']' {
        ItemsAreRanges(p[3..]);
        assert p[1..][2..] == p[3..] && p[1..][0] == '-' && p[1..][1] == p[2];
        if Pieces(p[3..]).Some? {
          var ps := Pieces(p[3..]).value.0;
          RangesCons(Range(p[0], p[2]), ps);
          var a, b := Item(c, c), Item(c, Code(p[2]));
          assert [a] + ([b] + Ranges(ps)) == [a, b] + Ranges(ps);
        }
      } else {
        ItemsAreRanges(p[1..]);
        assert Items(p[1..], c) == Items(p[1..], 0);
        if Pieces(p[1..]).Some? { RangesCons(Single(p[0]), Pieces(p[1..]).value.0); }
      }
    }
  }

  lemma RangesCons(p: Piece, ps: seq<Piece>)
    ensures Ranges([p] + ps) == Ranges([p]) + Ranges(ps)
  {
    assert ([p] + ps)[1..] == ps && [p][1..] == [];
  }

  lemma ListIsRead(q: string)
    ensures List(q) == ListRead(q)
  {
    hide Items, Pieces;
    if q != "" && q[0] == ']' {
      ItemsAreRanges(q[1..]);
      if Pieces(q[1..]).Some? { RangesCons(Single(']'), Pieces(q[1..]).value.0); }
    } else {
      ItemsAreRanges(q);
    }
  }

  /** The ranges cover exactly what the singles and ranges of the list take. */
  lemma {:induction false} RangesCover(ps: seq<Piece>, x: int)
    ensures InItems(x, Ranges(ps)) <==> Covers(ps, x)
    decreases |ps|
  {
    if ps != [] {
      RangesCover(ps[1..], x);
      assert ps == [ps[0]] + ps[1..];
      CoversCons(ps[0], ps[1..], x);
      hide InItems, Covers;
      match ps[0]
      case Single(c) => SeeFirst(x, Item(Code(c), Code(c)), Ranges(ps[1..]));
      case Range(lo, hi) =>
        var more := [Item(Code(lo), Code(hi))] + Ranges(ps[1..]);
        assert Ranges(ps) == [Item(Code(lo), Code(lo))] + more;
        SeeFirst(x, Item(Code(lo), Code(lo)), more);
        SeeFirst(x, Item(Code(lo), Code(hi)), Ranges(ps[1..]));
    }
  }

  lemma CoversCons(p: Piece, ps: seq<Piece>, x: int)
    ensures Covers([p] + ps, x) <==> Takes(x, p) || Covers(ps, x)
  {
    var all := [p] + ps;
    if Takes(x, p) { assert Takes(x, all[0]); }
    if Covers(ps, x) {
      var k :| 0 <= k < |ps| && Takes(x, ps[k]);
      assert Takes(x, all[k + 1]);
    }
  }

  /** The text of a class and what follows it: an optional caret, a closing bracket that comes first or not, and
      singles and ranges. */
  function ClassText(negated: bool, bracket: bool, ps: seq<Piece>, rest: string): string {
    (if negated then "[^" else "[") + Inside(bracket, ps, rest)
  }

  /** A list that begins with a caret is negated, and one without characters is not closed where it seems to be. */
  predicate WellFormed(negated: bool, bracket: bool, ps: seq<Piece>) {
    Clean(ps) && (bracket || (ps != [] && (negated || First(ps[0]) != '^')))
  }

  function ClassPieces(bracket: bool, ps: seq<Piece>): seq<Piece> { (if bracket then [Single(']')] else []) + ps }

  /** What stands inside the brackets, and after them. */
  function Inside(bracket: bool, ps: seq<Piece>, rest: string): string {
    (if bracket then "]" else "") + (ListText(ps) + "]" + rest)
  }

  lemma ListOfClass(bracket: bool, ps: seq<Piece>, rest: string)
    requires Clean(ps) && (bracket || ps != [])
    ensures Enclosed(Inside(bracket, ps, rest)) == Some((ClassPieces(bracket, ps), rest))
  {
    PiecesBack(ps, rest);
    if !bracket { FirstIsPlain(ps, rest); }
    hide Pieces, ListText, Clean;
    var q, t := Inside(bracket, ps, rest), ListText(ps) + "]" + rest;
    if bracket {
      assert q[0] == ']' && q[1..] == t;
    } else {
      assert q == t && [] + ps == ps;
    }
  }

  lemma FirstIsPlain(ps: seq<Piece>, rest: string)
    requires Clean(ps) && ps != []
    ensures var t := ListText(ps) + "]" + rest; t != "" && t[0] == First(ps[0]) && t[0] != ']'
  {
    TextFirst(ps, rest);
  }

  lemma ClassOpens(negated: bool, bracket: bool, ps: seq<Piece>, rest: string)
    requires WellFormed(negated, bracket, ps)
    ensures var p := ClassText(negated, bracket, ps, rest);
      p != "" && p[0] == '[' && Inverted(p[1..]) == negated && AfterCaret(p[1..]) == Inside(bracket, ps, rest)
  {
    if !bracket { FirstIsPlain(ps, rest); }
    hide ListText, Clean;
    var p, inner := ClassText(negated, bracket, ps, rest), Inside(bracket, ps, rest);
    if negated {
      assert p[1..] == "^" + inner && p[1..][1..] == inner;
    } else {
      assert p[1..] == inner;
    }
  }

  lemma ClassCovers(bracket: bool, ps: seq<Piece>, x: int)
    ensures InItems(x, Ranges(ClassPieces(bracket, ps))) <==> (bracket && x == Code(']')) || Covers(ps, x)
  {
    hide InItems, Covers, Ranges;
    RangesCover(ClassPieces(bracket, ps), x);
    if bracket { CoversCons(Single(']'), ps, x); } else { assert [] + ps == ps; }
  }

  /** Every class is read, by the code and in the documented reading, as what its singles and ranges take: a text
      character fits exactly when some single or range of the list takes it, or none when the list is negated. */
  lemma ClassIsItsList(negated: bool, bracket: bool, ps: seq<Piece>, rest: string, run: bool)
    requires WellFormed(negated, bracket, ps)
    ensures var p, items := ClassText(negated, bracket, ps, rest), Ranges(ClassPieces(bracket, ps));
      && Parse(p, run) == [Class(negated, items)] + Parse(rest, false)
      && Documented(p) == [Class(negated, items)] + Documented(rest)
      && forall x :: InItems(x, items) <==> (bracket && x == Code(']')) || Covers(ps, x)
  {
    hide List, Enclosed, Ranges, InItems, Covers, ClassText, Inside, Inverted, AfterCaret, ClassPieces;
    ClassOpens(negated, bracket, ps, rest);
    ListOfClass(bracket, ps, rest);
    ListIsRead(Inside(bracket, ps, rest));
    forall x ensures InItems(x, Ranges(ClassPieces(bracket, ps))) <==> (bracket && x == Code(']')) || Covers(ps, x) {
      ClassCovers(bracket, ps, x);
    }
  }

  /** For instance, "[a-z]" matches a lower-case letter and nothing else. */
  lemma LowerCaseLetters(c: char)
    requires c as int < 256 && !IsSpace(c)
    ensures Matches(Parse("[a-z]", false), [c]) <==> 'a' <= c <= 'z'
  {
    var ps := [Range('a', 'z')];
    assert ps[1..] == [] && ListText(ps) == "a-z" && ClassText(false, false, ps, "") == "[a-z]";
    ClassIsItsList(false, false, ps, "", false);
    var items := Ranges(ClassPieces(false, ps));
    ClassThen(false, items, [], [c]);
    assert Parse("", false) == [] && [c][1..] == "";
    CoversCons(Range('a', 'z'), [], Code(c));
    assert ps == [Range('a', 'z')] + [];
  }

  /** The elements as the comment above the function describes them. */
  function Documented(p: string): seq<Elem>
    decreases |p|
  {
    if p == "" then []
    else if p[0] == '*' then [Star] + Documented(p[1..])
    else if p[0] == '?' then [One] + Documented(p[1..])
    else if p[0] == '[' then
      match ListRead(AfterCaret(p[1..]))
      case None => [Unclosed]
      case Some(r) => [Class(Inverted(p[1..]), r.0)] + Documented(r.1)
    else if IsSpace(p[0]) then [Space] + Documented(p[1..][SpaceLen(p[1..])..])
    else if p[0] == '#' then [Digits] + Documented(p[1..])
    else [Lit(p[0])] + Documented(p[1..])
  }

  /** A run of stars and question marks is directly followed by a number sign or white space. */
  predicate Collides(p: string, run: bool)
    decreases |p|
  {
    if p == "" then false
    else if p[0] == '*' then Collides(p[1..], true)
    else if p[0] == '?' then Collides(p[1..], run)
    else if p[0] == '[' then
      match ListRead(AfterCaret(p[1..]))
      case None => false
      case Some(r) => Collides(r.1, false)
    else if IsSpace(p[0]) then run || Collides(p[1..][SpaceLen(p[1..])..], false)
    else (run && p[0] == '#') || Collides(p[1..], false)
  }

  /** The code reads a pattern as documented exactly when no such run meets a number sign or white space. */
  lemma {:induction false} ReadAsDocumented(p: string, run: bool)
    ensures Parse(p, run) == Documented(p) <==> !Collides(p, run)
    decreases |p|
  {
    hide SpaceLen, List, ListRead;
    if p == "" {
    } else if p[0] == '*' {
      ReadAsDocumented(p[1..], true);
      ConsSame(Star, Parse(p[1..], true), Documented(p[1..]));
    } else if p[0] == '?' {
      ReadAsDocumented(p[1..], run);
      ConsSame(One, Parse(p[1..], run), Documented(p[1..]));
    } else if p[0] == '[' {
      ListIsRead(AfterCaret(p[1..]));
      match List(AfterCaret(p[1..]))
      case None =>
      case Some(r) =>
        ReadAsDocumented(r.1, false);
        ConsSame(Class(Inverted(p[1..]), r.0), Parse(r.1, false), Documented(r.1));
    } else if IsSpace(p[0]) {
      if run {
        assert Parse(p, run)[0] == Lit(p[0]) && Documented(p)[0] == Space;
      } else {
        var q := p[1..][SpaceLen(p[1..])..];
        ReadAsDocumented(q, false);
        ConsSame(Space, Parse(q, false), Documented(q));
      }
    } else {
      ReadAsDocumented(p[1..], false);
      if p[0] == '#' {
        if run {
          assert Parse(p, run)[0] == Lit('#') && Documented(p)[0] == Digits;
        } else {
          ConsSame(Digits, Parse(p[1..], false), Documented(p[1..]));
        }
      } else {
        ConsSame(Lit(p[0]), Parse(p[1..], false), Documented(p[1..]));
      }
    }
  }

  lemma ConsSame(e: Elem, a: seq<Elem>, b: seq<Elem>)
    ensures [e] + a == [e] + b <==> a == b
  {
    assert ([e] + a)[1..] == a && ([e] + b)[1..] == b;
  }

  /** One pattern and text where the comment and the code part: a star before a number sign. */
  lemma StarBeforeNumber()
    ensures Collides("*#", false)
    ensures Matches(Documented("*#"), "5") && !Matches(Parse("*#", false), "5")
  {
    var p, z := "*#", "5";
    assert p[1..] == "#" && p[1..][1..] == "";
    assert Documented("#") == [Digits] && Documented(p) == [Star, Digits];
    assert Parse("#", true) == [Lit('#')] && Parse(p, false) == [Star, Lit('#')];
    assert z[0..] == z && z[1..] == "" && DigitLen(z) == 1;
    assert Unsigned(z) == z;
    assert [Star, Digits][1..] == [Digits] && [Digits][1..] == [];
    assert Matches([Digits], z[0..]);
    assert [Star, Lit('#')][1..] == [Lit('#')];
    assert forall k :: 0 <= k <= |z| ==> !Matches([Lit('#')], z[k..]);
  }

  // ---------------------------------------------------------------- facts about stars

  lemma StarStep(es: seq<Elem>, z: string)
    ensures Matches([Star] + es, z) <==> Matches(es, z) || (z != "" && Matches([Star] + es, z[1..]))
  {
    assert ([Star] + es)[1..] == es;
    assert z[0..] == z;
    if z != "" {
      forall k | 0 <= k <= |z[1..]| ensures z[1..][k..] == z[k + 1..] { }
      if Matches([Star] + es, z) && !Matches(es, z) {
        var k :| 0 <= k <= |z| && Matches(es, z[k..]);
        assert z[1..][k - 1..] == z[k..];
      }
      if Matches([Star] + es, z[1..]) {
        var k :| 0 <= k <= |z[1..]| && Matches(es, z[1..][k..]);
        assert z[k + 1..] == z[1..][k..];
      }
    }
  }

  /** Two stars are one. */
  lemma StarStar(es: seq<Elem>, z: string)
    ensures Matches([Star] + ([Star] + es), z) <==> Matches([Star] + es, z)
    decreases |z|
  {
    hide Matches;
    StarStep([Star] + es, z);
    StarStep(es, z);
    if z != "" { StarStar(es, z[1..]); }
  }

  /** A star may give its first character to a question mark. */
  lemma StarOne(es: seq<Elem>, z: string)
    ensures Matches([Star] + ([One] + es), z) <==> z != "" && Matches([Star] + es, z[1..])
    decreases |z|
  {
    StarStep([One] + es, z);
    OneThen(es, z);
    hide Matches;
    if z != "" {
      StarOne(es, z[1..]);
      StarStep(es, z[1..]);
    }
  }

  lemma OneThen(es: seq<Elem>, z: string)
    ensures Matches([One] + es, z) <==> z != "" && Matches(es, z[1..])
  {
    assert ([One] + es)[1..] == es;
  }

  lemma LitThen(c: char, es: seq<Elem>, z: string)
    ensures Matches([Lit(c)] + es, z) <==> z != "" && z[0] == c && Matches(es, z[1..])
  {
    assert ([Lit(c)] + es)[1..] == es;
  }

  lemma ClassThen(invert: bool, items: seq<Item>, es: seq<Elem>, z: string)
    ensures Matches([Class(invert, items)] + es, z) <==>
      z != "" && InItems(Code(z[0]), items) != invert && Matches(es, z[1..])
  {
    assert ([Class(invert, items)] + es)[1..] == es;
  }

  lemma DigitsThen(es: seq<Elem>, z: string)
    ensures var u := Unsigned(z); Matches([Digits] + es, z) <==> DigitLen(u) > 0 && Matches(es, u[DigitLen(u)..])
  {
    assert ([Digits] + es)[1..] == es;
  }

  lemma SpaceThen(es: seq<Elem>, z: string)
    ensures Matches([Space] + es, z) <==> SpaceLen(z) > 0 && Matches(es, z[SpaceLen(z)..])
  {
    assert ([Space] + es)[1..] == es;
  }

  lemma NeverMatches(z: string)
    ensures !Matches([Unclosed], z)
  {
  }

  /** A final star takes everything. */
  lemma StarEnds(z: string)
    ensures Matches([Star] + [], z)
  {
    assert ([Star] + [])[1..] == [] && AllSpace(z[|z|..]);
    assert Matches([], z[|z|..]);
  }

  // ---------------------------------------------------------------- the matcher

  method SkipSpace(z: string) returns (r: string)
    ensures r == z[SpaceLen(z)..]
  {
    r := z;
    while r != "" && IsSpace(r[0])
      invariant |r| <= |z| && r[SpaceLen(r)..] == z[SpaceLen(z)..]
      decreases |r|
    {
      assert r[1..][SpaceLen(r[1..])..] == r[SpaceLen(r)..];
      r := r[1..];
    }
  }

  /** The branch for a number sign. */
  method MatchNumber(z: string) returns (ok: bool, r: string)
    ensures ok <==> DigitLen(Unsigned(z)) > 0
    ensures ok ==> r == Unsigned(z)[DigitLen(Unsigned(z))..]
  {
    r := z;
    if |r| > 1 && (r[0] == '-' || r[0] == '+') && IsDigit(r[1]) { r := r[1..]; }
    if r == "" || !IsDigit(r[0]) { return false, r; }
    ok := true;
    ghost var u := r;
    r := r[1..];
    assert u[DigitLen(u)..] == r[DigitLen(r)..];
    while r != "" && IsDigit(r[0])
      invariant u[DigitLen(u)..] == r[DigitLen(r)..]
      decreases |r|
    {
      assert r[1..][DigitLen(r[1..])..] == r[DigitLen(r)..];
      r := r[1..];
    }
  }

  lemma SeeFirst(c: int, i: Item, items: seq<Item>)
    ensures InItems(c, [i] + items) <==> i.lo <= c <= i.hi || InItems(c, items)
  {
    if i.lo <= c <= i.hi { assert ([i] + items)[0] == i; }
    if InItems(c, items) {
      var k :| 0 <= k < |items| && items[k].lo <= c <= items[k].hi;
      assert ([i] + items)[k + 1] == items[k];
    }
  }

  /** The loop over the list of a class, for the text character c. */
  method ScanList(g0: string, c: int, seen0: bool) returns (closed: bool, seen: bool, g: string)
    ensures closed <==> Items(g0, 0).Some?
    ensures closed ==> g == Items(g0, 0).value.1 && seen == (seen0 || InItems(c, Items(g0, 0).value.0))
  {
    hide InItems;
    ghost var goal := Items(g0, 0);
    var prior := 0;
    g, seen := g0, seen0;
    while g != "" && g[0] != ']'
      invariant goal.Some? <==> Items(g, prior).Some?
      invariant goal.Some? ==> goal.value.1 == Items(g, prior).value.1
      invariant goal.Some? ==> ((seen0 || InItems(c, goal.value.0)) <==> (seen || InItems(c, Items(g, prior).value.0)))
      decreases |g|
    {
      if g[0] == '-' && |g| > 1 && g[1] != ']' && prior > 0 {
        if Items(g[2..], 0).Some? { SeeFirst(c, Item(prior, Code(g[1])), Items(g[2..], 0).value.0); }
        if prior <= c <= Code(g[1]) { seen := true; }
        prior := 0;
        g := g[2..];
      } else {
        if Items(g[1..], Code(g[0])).Some? {
          SeeFirst(c, Item(Code(g[0]), Code(g[0])), Items(g[1..], Code(g[0])).value.0);
        }
        if c == Code(g[0]) { seen := true; }
        prior := Code(g[0]);
        g := g[1..];
      }
    }
    closed := g != "";
    if closed {
      assert !InItems(c, []) by { SeeNone(c); }
      g := g[1..];
    }
  }

  lemma SeeNone(c: int) ensures !InItems(c, []) { }

  /** The branch for a class, after its opening bracket. */
  method MatchClass(p: string, z: string) returns (ok: bool, g: string, r: string)
    ensures var l := List(AfterCaret(p));
      ok <==> z != "" && l.Some? && InItems(Code(z[0]), l.value.0) != Inverted(p)
    ensures ok ==> g == List(AfterCaret(p)).value.1 && r == z[1..]
  {
    hide InItems;
    g, r := p, z;
    if z == "" { return false, g, r; }
    var c := Code(z[0]);
    r := z[1..];
    var seen, invert := false, false;
    if g != "" && g[0] == '^' {
      invert := true;
      g := g[1..];
    }
    assert g == AfterCaret(p) && invert == Inverted(p);
    if g != "" && g[0] == ']' {
      if c == Code(']') { seen := true; }
      g := g[1..];
      if Items(g, 0).Some? { SeeFirst(c, Item(Code(']'), Code(']')), Items(g, 0).value.0); }
    }
    var closed;
    closed, seen, g := ScanList(g, c, seen);
    ok := closed && seen != invert;
  }

  lemma ClassNeedsText(g: string)
    requires g != "" && g[0] == '['
    ensures !Matches(Parse(g, false), "") && Parse(g, true) == Parse(g, false)
  {
    hide List;
    match List(AfterCaret(g[1..]))
    case None =>
    case Some(r) => ClassThen(Inverted(g[1..]), r.0, Parse(r.1, false), "");
  }

  /** A star, a literal, and the rest: somewhere the literal occurs and the rest follows. */
  lemma StarLit(c: char, es: seq<Elem>, z: string)
    ensures Matches([Star] + ([Lit(c)] + es), z) <==>
      z != "" && ((z[0] == c && Matches(es, z[1..])) || Matches([Star] + ([Lit(c)] + es), z[1..]))
  {
    StarStep([Lit(c)] + es, z);
    LitThen(c, es, z);
  }

  /** What follows a star, after that star. */
  method MatchStar(g0: string, z0: string) returns (ok: bool)
    ensures ok <==> Matches([Star] + Parse(g0, true), z0)
    decreases |g0|, 1, 0
  {
    hide Matches, List, SpaceLen;
    ghost var goal := Matches([Star] + Parse(g0, true), z0);
    var g, z := g0, z0;
    while g != "" && (g[0] == '*' || g[0] == '?')
      invariant |g| <= |g0| && goal == Matches([Star] + Parse(g, true), z)
      decreases |g|
    {
      if g[0] == '*' {
        StarStar(Parse(g[1..], true), z);
      } else {
        StarOne(Parse(g[1..], true), z);
        if z == "" { return false; }
        z := z[1..];
      }
      g := g[1..];
    }
    if g == "" {
      StarEnds(z);
      return true;
    }
    if g[0] == '[' {
      ok := StarBeforeClass(g, z);
      return;
    }
    ok := StarBeforeLiteral(g, z);
  }

  method StarBeforeClass(g: string, z0: string) returns (ok: bool)
    requires g != "" && g[0] == '['
    ensures ok <==> Matches([Star] + Parse(g, true), z0)
    decreases |g|, 0, 1
  {
    hide Matches, Parse;
    ClassNeedsText(g);
    ghost var es := Parse(g, false);
    var z := z0;
    while z != ""
      invariant Matches([Star] + es, z0) == Matches([Star] + es, z)
      decreases |z|
    {
      StarStep(es, z);
      ok := TestcaseGlob(g, z);
      if ok { return true; }
      z := z[1..];
    }
    StarStep(es, "");
    ok := false;
  }

  method StarBeforeLiteral(g: string, z0: string) returns (ok: bool)
    requires g != "" && g[0] != '[' && g[0] != '*' && g[0] != '?'
    ensures ok <==> Matches([Star] + Parse(g, true), z0)
    decreases |g|, 0, 1
  {
    hide Matches, List, SpaceLen;
    var c, rest := g[0], g[1..];
    ghost var es := Parse(rest, false);
    assert Parse(g, true) == [Lit(c)] + es;
    ghost var all := [Star] + ([Lit(c)] + es);
    var z := z0;
    while z != ""
      invariant Matches(all, z0) == Matches(all, z)
      decreases |z|
    {
      while z[0] != c
        invariant z != "" && Matches(all, z0) == Matches(all, z)
        decreases |z|
      {
        StarLit(c, es, z);
        z := z[1..];
        if z == "" {
          StarLit(c, es, z);
          return false;
        }
      }
      StarLit(c, es, z);
      z := z[1..];
      ok := TestcaseGlob(rest, z);
      if ok { return true; }
    }
    StarLit(c, es, z);
    ok := false;
  }

  lemma EndOfPattern(z: string)
    ensures Matches(Parse("", false), z) <==> SpaceLen(z) == |z|
  {
    if SpaceLen(z) < |z| { assert !IsSpace(z[SpaceLen(z)]); }
  }

  /** testcase_glob: true exactly when the pattern, as the code reads it, matches. */
  method TestcaseGlob(zGlob: string, z0: string) returns (ok: bool)
    ensures ok <==> Matches(Parse(zGlob, false), z0)
    decreases |zGlob|, 0, 0
  {
    hide Matches, List, SpaceLen, DigitLen, Unsigned, InItems;
    ghost var goal := Matches(Parse(zGlob, false), z0);
    var g, z := zGlob, z0;
    while g != ""
      invariant |g| <= |zGlob| && goal == Matches(Parse(g, false), z)
      decreases |g|
    {
      var c, rest := g[0], g[1..];
      if IsSpace(c) {
        SpaceThen(Parse(rest[SpaceLen(rest)..], false), z);
        SpaceFirst(z);
        if z == "" || !IsSpace(z[0]) { return false; }
        g := SkipSpace(rest);
        z := SkipSpace(z);
      } else if c == '*' {
        ok := MatchStar(rest, z);
        return;
      } else if c == '?' {
        OneThen(Parse(rest, false), z);
        if z == "" { return false; }
        g, z := rest, z[1..];
      } else if c == '[' {
        var fits, after, text := MatchClass(rest, z);
        match List(AfterCaret(rest)) {
          case None => NeverMatches(z);
          case Some(r) => ClassThen(Inverted(rest), r.0, Parse(r.1, false), z);
        }
        if !fits { return false; }
        g, z := after, text;
      } else if c == '#' {
        DigitsThen(Parse(rest, false), z);
        var fits, text := MatchNumber(z);
        if !fits { return false; }
        g, z := rest, text;
      } else {
        LitThen(c, Parse(rest, false), z);
        if z == "" || c != z[0] { return false; }
        g, z := rest, z[1..];
      }
    }
    EndOfPattern(z);
    z := SkipSpace(z);
    ok := z == "";
  }

  lemma SpaceFirst(z: string)
    ensures SpaceLen(z) > 0 <==> z != "" && IsSpace(z[0])
  {
  }
}
