/** What the comment above testcase_glob promises, and exactly which patterns the code matches as promised. */
module GlobMeaning {
  import opened Core
  import opened CString
  import opened GlobList
  import opened Glob

  // ---------------------------------------------------------------- the documented meaning

  predicate AllDigits(s: string) { s != "" && forall k :: 0 <= k < |s| ==> IsDigit(s[k]) }

  predicate IsSign(c: char) { c == '+' || c == '-' }

  /** One or more digits with an optional sign in front. */
  predicate IsNumber(s: string) { AllDigits(s) || (s != "" && IsSign(s[0]) && AllDigits(s[1..])) }

  /** Some way to cut the text fits the elements: a star stands for any stretch, a number sign for any number, white
      space for any span of it; white space at the end is ignored. */
  ghost predicate Means(es: seq<Elem>, z: string)
    decreases |es|
  {
    if es == [] then AllSpace(z)
    else match es[0]
      case Star => exists k :: 0 <= k <= |z| && Means(es[1..], z[k..])
      case One => z != "" && Means(es[1..], z[1..])
      case Lit(c) => z != "" && z[0] == c && Means(es[1..], z[1..])
      case Class(invert, items) => z != "" && InItems(Code(z[0]), items) != invert && Means(es[1..], z[1..])
      case Digits => exists k :: 1 <= k <= |z| && IsNumber(z[..k]) && Means(es[1..], z[k..])
      case Space => exists k :: 1 <= k <= |z| && AllSpace(z[..k]) && Means(es[1..], z[k..])
      case Unclosed => false
  }

  // ---------------------------------------------------------------- longest stretches

  lemma {:induction false} DigitRun(z: string)
    ensures forall k :: 0 <= k < DigitLen(z) ==> IsDigit(z[k])
    ensures DigitLen(z) < |z| ==> !IsDigit(z[DigitLen(z)])
    decreases |z|
  {
    if z != "" && IsDigit(z[0]) { DigitRun(z[1..]); }
  }

  lemma {:induction false} DigitsAtLeast(z: string, j: nat)
    requires j <= |z| && forall k :: 0 <= k < j ==> IsDigit(z[k])
    ensures DigitLen(z) >= j
    decreases j
  {
    if j > 0 { DigitsAtLeast(z[1..], j - 1); }
  }

  lemma {:induction false} SpacesAtLeast(z: string, j: nat)
    requires j <= |z| && forall k :: 0 <= k < j ==> IsSpace(z[k])
    ensures SpaceLen(z) >= j
    decreases j
  {
    if j > 0 { SpacesAtLeast(z[1..], j - 1); }
  }

  /** How much of the text the code takes for a number sign. */
  function NumberLen(z: string): (n: nat)
    ensures n <= |z|
  {
    |z| - |Unsigned(z)| + DigitLen(Unsigned(z))
  }

  lemma NumberRest(z: string)
    ensures z[NumberLen(z)..] == Unsigned(z)[DigitLen(Unsigned(z))..]
  {
  }

  lemma LongestNumber(z: string)
    requires DigitLen(Unsigned(z)) > 0
    ensures NumberLen(z) >= 1 && IsNumber(z[..NumberLen(z)])
  {
    var u := Unsigned(z);
    DigitRun(u);
    var n := NumberLen(z);
    if |u| == |z| { assert AllDigits(z[..n]); } else { assert z[..n][1..] == u[..DigitLen(u)]; }
  }

  /** Every number at the start of the text is part of the longest one, and only digits follow it there. */
  lemma NumberWithin(z: string, k: nat)
    requires 1 <= k <= |z| && IsNumber(z[..k])
    ensures DigitLen(Unsigned(z)) > 0 && k <= NumberLen(z)
    ensures forall i :: k <= i < NumberLen(z) ==> IsDigit(z[i])
  {
    var u := Unsigned(z);
    DigitRun(u);
    var p := z[..k];
    assert forall i :: 0 <= i < k ==> p[i] == z[i];
    if AllDigits(p) {
      assert u == z && IsDigit(z[0]);
      DigitsAtLeast(u, k);
    } else {
      assert p[1..] != "" && p[1..][0] == z[1] && IsDigit(z[1]);
      assert u == z[1..];
      forall i | 0 <= i < k - 1 ensures IsDigit(u[i]) { assert u[i] == p[1..][i]; }
      DigitsAtLeast(u, k - 1);
      forall i | k <= i < NumberLen(z) ensures IsDigit(z[i]) { assert z[i] == u[i - 1]; }
    }
  }

  // ---------------------------------------------------------------- what the code finds is meant

  lemma {:induction false} MatchesMeans(es: seq<Elem>, z: string)
    requires Matches(es, z)
    ensures Means(es, z)
    decreases |es|
  {
    if es != [] {
      var r := es[1..];
      match es[0]
      case Star =>
        var k :| 0 <= k <= |z| && Matches(r, z[k..]);
        MatchesMeans(r, z[k..]);
      case One => MatchesMeans(r, z[1..]);
      case Lit(_) => MatchesMeans(r, z[1..]);
      case Class(_, _) => MatchesMeans(r, z[1..]);
      case Digits =>
        LongestNumber(z);
        NumberRest(z);
        MatchesMeans(r, z[NumberLen(z)..]);
      case Space =>
        var n := SpaceLen(z);
        assert AllSpace(z[..n]);
        MatchesMeans(r, z[n..]);
      case Unclosed =>
    }
  }

  // ---------------------------------------------------------------- patterns where longest is enough

  predicate IsByte(c: char) { 0 < c as int < 256 }

  /** One character that the element can take. */
  predicate Accepts(e: Elem, c: char) {
    match e
    case Lit(x) => c == x
    case One => true
    case Class(invert, items) => InItems(Code(c), items) != invert
    case Digits => IsDigit(c)
    case Space => IsSpace(c)
    case Star => false
    case Unclosed => false
  }

  predicate Of(digits: bool, c: char) { if digits then IsDigit(c) else IsSpace(c) }

  /** The first element that is not a star can take a digit, or white space. */
  ghost predicate MayStart(es: seq<Elem>, digits: bool) {
    if es == [] then false
    else if es[0].Star? then MayStart(es[1..], digits)
    else exists c :: IsByte(c) && Of(digits, c) && Accepts(es[0], c)
  }

  /** No number sign stands before something that can take a digit, and no white space before something that can take
      white space. */
  ghost predicate Safe(es: seq<Elem>) {
    es != [] ==>
      && Safe(es[1..])
      && (es[0].Digits? ==> !MayStart(es[1..], true))
      && (es[0].Space? ==> !MayStart(es[1..], false))
  }

  lemma TakesFirst(es: seq<Elem>, z: string)
    requires es != [] && !es[0].Star? && !es[0].Digits? && Matches(es, z)
    ensures z != "" && Accepts(es[0], z[0])
  {
  }

  lemma TakesNumber(es: seq<Elem>, z: string)
    requires es != [] && es[0].Digits? && Matches(es, z)
    ensures z != "" && (IsDigit(z[0]) || IsSign(z[0]))
  {
  }

  /** What cannot take the first characters does not need them. */
  lemma {:induction false} Slide(es: seq<Elem>, y: string, j: nat, digits: bool)
    requires !MayStart(es, digits) && IsText(y) && j <= |y| && Matches(es, y)
    requires forall i :: 0 <= i < j ==> Of(digits, y[i])
    ensures Matches(es, y[j..])
    decreases |es|
  {
    if j == 0 {
      assert y[0..] == y;
    } else if es == [] {
      assert Of(digits, y[0]);
    } else if es[0].Star? {
      SlideStar(es, y, j, digits);
    } else {
      assert IsByte(y[0]) && Of(digits, y[0]);
      if es[0].Digits? { TakesNumber(es, y); } else { TakesFirst(es, y); }
      assert false;
    }
  }

  lemma {:induction false} SlideStar(es: seq<Elem>, y: string, j: nat, digits: bool)
    requires es != [] && es[0].Star? && !MayStart(es, digits) && IsText(y) && 0 < j <= |y| && Matches(es, y)
    requires forall i :: 0 <= i < j ==> Of(digits, y[i])
    ensures Matches(es, y[j..])
    decreases |es|, 0
  {
    var r := es[1..];
    var k :| 0 <= k <= |y| && Matches(r, y[k..]);
    if k >= j {
      assert y[j..][k - j..] == y[k..];
      assert Matches(r, y[j..][k - j..]);
    } else {
      Slide(r, y[k..], j - k, digits);
      assert y[k..][j - k..] == y[j..] && y[j..][0..] == y[j..];
      assert Matches(r, y[j..][0..]);
    }
  }

  lemma {:induction false} MeansMatches(es: seq<Elem>, z: string)
    requires Safe(es) && IsText(z) && Means(es, z)
    ensures Matches(es, z)
    decreases |es|
  {
    if es != [] {
      var r := es[1..];
      match es[0]
      case Star =>
        var k :| 0 <= k <= |z| && Means(r, z[k..]);
        MeansMatches(r, z[k..]);
        assert Matches(r, z[k..]);
      case One => MeansMatches(r, z[1..]);
      case Lit(_) => MeansMatches(r, z[1..]);
      case Class(_, _) => MeansMatches(r, z[1..]);
      case Digits =>
        var k :| 1 <= k <= |z| && IsNumber(z[..k]) && Means(r, z[k..]);
        MeansMatches(r, z[k..]);
        NumberWithin(z, k);
        NumberRest(z);
        var n := NumberLen(z);
        Slide(r, z[k..], n - k, true);
        assert z[k..][n - k..] == z[n..];
      case Space =>
        var k :| 1 <= k <= |z| && AllSpace(z[..k]) && Means(r, z[k..]);
        MeansMatches(r, z[k..]);
        var n := SpaceLen(z);
        SpaceWithin(z, k);
        Slide(r, z[k..], n - k, false);
        assert z[k..][n - k..] == z[n..];
      case Unclosed =>
    }
  }

  lemma SpaceWithin(z: string, k: nat)
    requires 1 <= k <= |z| && AllSpace(z[..k])
    ensures k <= SpaceLen(z) && forall i :: k <= i < SpaceLen(z) ==> IsSpace(z[i])
  {
    forall i | 0 <= i < k ensures IsSpace(z[i]) { assert z[..k][i] == z[i]; }
    SpacesAtLeast(z, k);
  }

  // ---------------------------------------------------------------- texts as short as possible

  /** Every element can take some character: no class is unclosed or empty. */
  ghost predicate Satisfiable(es: seq<Elem>) {
    forall i :: 0 <= i < |es| ==> es[i].Star? || CanTake(es[i])
  }

  ghost predicate CanTake(e: Elem) { exists c :: IsByte(c) && Accepts(e, c) }

  function Needed(es: seq<Elem>): nat {
    if es == [] then 0 else (if es[0].Star? then 0 else 1) + Needed(es[1..])
  }

  /** One character for each element, nothing for a star; with `longest`, a number or a span is not followed by more
      of it. */
  ghost predicate Tight(es: seq<Elem>, z: string, longest: bool) {
    if es == [] then z == ""
    else if es[0].Star? then Tight(es[1..], z, longest)
    else
      && z != "" && Accepts(es[0], z[0]) && Tight(es[1..], z[1..], longest)
      && (longest && |z| > 1 ==> (es[0].Digits? ==> !IsDigit(z[1])) && (es[0].Space? ==> !IsSpace(z[1])))
  }

  lemma {:induction false} TightLength(es: seq<Elem>, z: string, longest: bool)
    requires Tight(es, z, longest)
    ensures |z| == Needed(es)
    decreases |es|
  {
    if es != [] { TightLength(es[1..], if es[0].Star? then z else z[1..], longest); }
  }

  lemma {:induction false} TightMeans(es: seq<Elem>, z: string)
    requires Tight(es, z, false)
    ensures Means(es, z)
    decreases |es|
  {
    if es != [] {
      var r := es[1..];
      if es[0].Star? {
        TightMeans(r, z);
        assert z[0..] == z;
        assert Means(r, z[0..]);
      } else {
        TightMeans(r, z[1..]);
        assert es[0].Digits? ==> IsNumber(z[..1]);
        assert es[0].Space? ==> AllSpace(z[..1]);
      }
    }
  }

  /** A text no longer than needed is matched tightly, if at all. */
  lemma {:induction false} ShortIsTight(es: seq<Elem>, z: string)
    requires |z| <= Needed(es) && Matches(es, z)
    ensures Tight(es, z, true)
    decreases |es|
  {
    if es != [] {
      var r := es[1..];
      if es[0].Star? {
        var k :| 0 <= k <= |z| && Matches(r, z[k..]);
        ShortIsTight(r, z[k..]);
        TightLength(r, z[k..], true);
        assert z[0..] == z;
      } else if es[0].Digits? {
        var n := NumberLen(z);
        NumberRest(z);
        ShortIsTight(r, z[n..]);
        TightLength(r, z[n..], true);
        DigitRun(Unsigned(z));
      } else if es[0].Space? {
        var n := SpaceLen(z);
        ShortIsTight(r, z[n..]);
        TightLength(r, z[n..], true);
      } else {
        TakesFirst(es, z);
        ShortIsTight(r, z[1..]);
      }
    }
  }

  lemma SatisfiableRest(es: seq<Elem>)
    requires es != []
    ensures Satisfiable(es) <==> Satisfiable(es[1..]) && (es[0].Star? || CanTake(es[0]))
  {
    hide CanTake;
    assert forall i :: 0 <= i < |es[1..]| ==> es[1..][i] == es[i + 1];
    if Satisfiable(es[1..]) && (es[0].Star? || CanTake(es[0])) {
      forall i | 0 <= i < |es| ensures es[i].Star? || CanTake(es[i]) {
        if i > 0 { assert es[i] == es[1..][i - 1]; }
      }
    }
  }

  /** A pattern that cannot take some element matches nothing. */
  lemma {:induction false} UnsatisfiableMeansNothing(es: seq<Elem>, z: string)
    requires !Satisfiable(es) && IsText(z)
    ensures !Means(es, z)
    decreases |es|
  {
    if es != [] && Means(es, z) {
      var r := es[1..];
      SatisfiableRest(es);
      if es[0].Star? {
        var k :| 0 <= k <= |z| && Means(r, z[k..]);
        UnsatisfiableMeansNothing(r, z[k..]);
      } else if es[0].Digits? {
        assert IsByte('0') && Accepts(es[0], '0');
        var k :| 1 <= k <= |z| && IsNumber(z[..k]) && Means(r, z[k..]);
        UnsatisfiableMeansNothing(r, z[k..]);
      } else if es[0].Space? {
        assert IsByte(' ') && Accepts(es[0], ' ');
        var k :| 1 <= k <= |z| && AllSpace(z[..k]) && Means(r, z[k..]);
        UnsatisfiableMeansNothing(r, z[k..]);
      } else {
        assert z != "" && IsByte(z[0]) && Accepts(es[0], z[0]);
        UnsatisfiableMeansNothing(r, z[1..]);
      }
    }
  }

  lemma TextCons(c: char, w: string)
    requires IsByte(c) && IsText(w)
    ensures IsText([c] + w) && ([c] + w)[1..] == w && ([c] + w)[0] == c
  {
  }

  /** The shortest text. */
  lemma {:induction false} Fill(es: seq<Elem>) returns (w: string)
    requires Satisfiable(es)
    ensures IsText(w) && Tight(es, w, false)
    decreases |es|
  {
    if es == [] {
      w := "";
    } else {
      SatisfiableRest(es);
      hide Satisfiable;
      w := Fill(es[1..]);
      if !es[0].Star? {
        var c :| IsByte(c) && Accepts(es[0], c);
        TextCons(c, w);
        w := [c] + w;
      }
    }
  }

  /** A shortest text that starts with a digit, or white space. */
  lemma {:induction false} FillFrom(es: seq<Elem>, digits: bool) returns (w: string)
    requires Satisfiable(es) && MayStart(es, digits)
    ensures IsText(w) && Tight(es, w, false) && w != "" && Of(digits, w[0])
    decreases |es|
  {
    SatisfiableRest(es);
    hide Satisfiable;
    if es[0].Star? {
      w := FillFrom(es[1..], digits);
    } else {
      var c :| IsByte(c) && Of(digits, c) && Accepts(es[0], c);
      w := Fill(es[1..]);
      TextCons(c, w);
      w := [c] + w;
    }
  }

  /** An unsafe pattern has a text that is meant and that the longest stretches miss. */
  lemma {:induction false} UnsafeWitness(es: seq<Elem>) returns (w: string)
    requires Satisfiable(es) && !Safe(es)
    ensures IsText(w) && Tight(es, w, false) && !Tight(es, w, true)
    decreases |es|
  {
    SatisfiableRest(es);
    hide Satisfiable;
    if !Safe(es[1..]) {
      w := UnsafeWitness(es[1..]);
      if !es[0].Star? {
        var c :| IsByte(c) && Accepts(es[0], c);
        TextCons(c, w);
        w := [c] + w;
      }
    } else {
      var digits := es[0].Digits?;
      w := FillFrom(es[1..], digits);
      var c := if digits then '0' else ' ';
      TextCons(c, w);
      w := [c] + w;
    }
  }

  /** Element by element: the code finds what is meant, for every text, if and only if the pattern is safe or can match
      nothing at all. */
  lemma LongestIsEnoughExactly(es: seq<Elem>)
    ensures (forall z :: IsText(z) ==> (Matches(es, z) <==> Means(es, z))) <==> Safe(es) || !Satisfiable(es)
  {
    hide Matches, Means, Safe, Satisfiable, Tight;
    if Safe(es) || !Satisfiable(es) {
      forall z | IsText(z) ensures Matches(es, z) <==> Means(es, z) {
        if Matches(es, z) { MatchesMeans(es, z); }
        if Means(es, z) {
          if Satisfiable(es) { MeansMatches(es, z); } else { UnsatisfiableMeansNothing(es, z); }
        }
      }
    } else {
      var w := UnsafeWitness(es);
      TightMeans(es, w);
      TightLength(es, w, false);
      if Matches(es, w) { ShortIsTight(es, w); }
      assert Means(es, w) && !Matches(es, w);
    }
  }

  // ---------------------------------------------------------------- as the code reads, as the comment describes

  lemma ConsSatisfiable(e: Elem, es: seq<Elem>)
    ensures Satisfiable([e] + es) <==> Satisfiable(es) && (e.Star? || CanTake(e))
  {
    SatisfiableRest([e] + es);
    assert ([e] + es)[1..] == es;
  }

  lemma ConsNeeded(e: Elem, es: seq<Elem>)
    ensures Needed([e] + es) == Needed(es) + (if e.Star? then 0 else 1)
  {
    assert ([e] + es)[1..] == es;
  }

  /** Both readings need the same classes, and the code's needs at least as many characters. */
  lemma {:induction false} ReadingsCompare(p: string, run: bool)
    ensures Satisfiable(Parse(p, run)) <==> Satisfiable(Documented(p))
    ensures Needed(Parse(p, run)) >= Needed(Documented(p))
    decreases |p|
  {
    hide SpaceLen, List, ListRead, Satisfiable, CanTake;
    if p == "" {
    } else if p[0] == '*' {
      ReadingsCompare(p[1..], true);
      CompareCons(Star, Star, Parse(p[1..], true), Documented(p[1..]));
    } else if p[0] == '?' {
      ReadingsCompare(p[1..], run);
      CompareCons(One, One, Parse(p[1..], run), Documented(p[1..]));
    } else if p[0] == '[' {
      ListIsRead(AfterCaret(p[1..]));
      match List(AfterCaret(p[1..]))
      case None =>
      case Some(r) =>
        ReadingsCompare(r.1, false);
        var c := Class(Inverted(p[1..]), r.0);
        CompareCons(c, c, Parse(r.1, false), Documented(r.1));
    } else if IsSpace(p[0]) {
      var q := p[1..][SpaceLen(p[1..])..];
      ReadingsCompare(q, false);
      CanTakeSpace(p[0]);
      CompareCons(Space, Space, Parse(q, false), Documented(q));
      if run { SpacesRead(p); }
    } else {
      ReadingsCompare(p[1..], false);
      CanTakeNumber();
      if p[0] == '#' {
        CompareCons(if run then Lit('#') else Digits, Digits, Parse(p[1..], false), Documented(p[1..]));
      } else {
        CompareCons(Lit(p[0]), Lit(p[0]), Parse(p[1..], false), Documented(p[1..]));
      }
    }
  }

  lemma CanTakeSpace(c: char)
    requires IsSpace(c)
    ensures CanTake(Lit(c)) && CanTake(Space)
  {
    assert IsByte(c) && Accepts(Lit(c), c) && Accepts(Space, c);
  }

  lemma CanTakeNumber()
    ensures CanTake(Lit('#')) && CanTake(Digits)
  {
    assert IsByte('#') && Accepts(Lit('#'), '#');
    assert IsByte('0') && Accepts(Digits, '0');
  }

  lemma CompareCons(e: Elem, f: Elem, a: seq<Elem>, b: seq<Elem>)
    requires (Satisfiable(a) <==> Satisfiable(b)) && Needed(a) >= Needed(b)
    requires e.Star? == f.Star? && (CanTake(e) <==> CanTake(f))
    ensures (Satisfiable([e] + a) <==> Satisfiable([f] + b)) && Needed([e] + a) >= Needed([f] + b)
  {
    hide CanTake, Satisfiable, Needed;
    ConsSatisfiable(e, a);
    ConsSatisfiable(f, b);
    ConsNeeded(e, a);
    ConsNeeded(f, b);
  }

  /** After a star run the first white space of a span is a literal, and the rest of the span a span. */
  lemma SpacesRead(p: string)
    requires p != "" && IsSpace(p[0])
    requires var q := p[1..][SpaceLen(p[1..])..];
      && (Satisfiable([Space] + Parse(q, false)) <==> Satisfiable([Space] + Documented(q)))
      && Needed([Space] + Parse(q, false)) >= Needed([Space] + Documented(q))
    ensures Satisfiable(Parse(p, true)) <==> Satisfiable(Documented(p))
    ensures Needed(Parse(p, true)) >= Needed(Documented(p))
  {
    hide Satisfiable, Needed, CanTake, List, ListRead;
    var r := p[1..];
    var q := r[SpaceLen(r)..];
    assert Parse(p, true) == [Lit(p[0])] + Parse(r, false);
    ConsSatisfiable(Lit(p[0]), Parse(r, false));
    ConsNeeded(Lit(p[0]), Parse(r, false));
    ConsSatisfiable(Space, Parse(q, false));
    ConsNeeded(Space, Parse(q, false));
    CanTakeSpace(p[0]);
    if r != "" && IsSpace(r[0]) {
      assert Parse(r, false) == [Space] + Parse(q, false) by { SpanRest(r); }
    } else {
      assert SpaceLen(r) == 0 && r[0..] == r;
    }
  }

  lemma SpanRest(r: string)
    requires r != "" && IsSpace(r[0])
    ensures r[SpaceLen(r)..] == r[1..][SpaceLen(r[1..])..]
    ensures Parse(r, false) == [Space] + Parse(r[SpaceLen(r)..], false)
  {
  }

  /** A collision has a text that is meant and that the code's reading cannot match. */
  lemma {:induction false} CollisionWitness(p: string, run: bool) returns (w: string)
    requires Collides(p, run) && Satisfiable(Documented(p))
    ensures IsText(w) && Tight(Documented(p), w, false) && !Tight(Parse(p, run), w, true)
    decreases |p|
  {
    hide SpaceLen, List, ListRead;
    SatisfiableRest(Documented(p));
    hide Satisfiable;
    if p[0] == '*' {
      TailOf(Star, Documented(p[1..]));
      w := CollisionWitness(p[1..], true);
      TailOf(Star, Parse(p[1..], true));
    } else if p[0] == '?' {
      TailOf(One, Documented(p[1..]));
      w := CollisionWitness(p[1..], run);
      w := Prefixed(One, 'x', w, Parse(p[1..], run), Documented(p[1..]));
    } else if p[0] == '[' {
      ListIsRead(AfterCaret(p[1..]));
      var r := List(AfterCaret(p[1..])).value;
      var e := Class(Inverted(p[1..]), r.0);
      TailOf(e, Documented(r.1));
      w := CollisionWitness(r.1, false);
      var c :| IsByte(c) && Accepts(e, c);
      w := Prefixed(e, c, w, Parse(r.1, false), Documented(r.1));
    } else if IsSpace(p[0]) {
      var q := p[1..][SpaceLen(p[1..])..];
      TailOf(Space, Documented(q));
      if run {
        w := Fill(Documented(q));
        w := Parted(Lit(p[0]), Space, if p[0] == ' ' then '\t' else ' ', w, Parse(p[1..], false), Documented(q));
      } else {
        w := CollisionWitness(q, false);
        w := Prefixed(Space, ' ', w, Parse(q, false), Documented(q));
      }
    } else if p[0] == '#' {
      TailOf(Digits, Documented(p[1..]));
      if run {
        w := Fill(Documented(p[1..]));
        w := Parted(Lit('#'), Digits, '0', w, Parse(p[1..], false), Documented(p[1..]));
      } else {
        w := CollisionWitness(p[1..], false);
        w := Prefixed(Digits, '0', w, Parse(p[1..], false), Documented(p[1..]));
      }
    } else {
      TailOf(Lit(p[0]), Documented(p[1..]));
      w := CollisionWitness(p[1..], false);
      var c :| IsByte(c) && Accepts(Lit(p[0]), c);
      w := Prefixed(Lit(p[0]), c, w, Parse(p[1..], false), Documented(p[1..]));
    }
  }

  lemma TailOf(e: Elem, es: seq<Elem>)
    ensures ([e] + es)[1..] == es && ([e] + es)[0] == e && [e] + es != []
  {
  }

  /** The same element in front of both readings. */
  lemma Prefixed(e: Elem, c: char, w: string, a: seq<Elem>, b: seq<Elem>) returns (v: string)
    requires IsByte(c) && Accepts(e, c) && IsText(w) && Tight(b, w, false) && !Tight(a, w, true)
    ensures IsText(v) && Tight([e] + b, v, false) && !Tight([e] + a, v, true)
  {
    TextCons(c, w);
    TailOf(e, a);
    TailOf(e, b);
    v := [c] + w;
  }

  /** A literal that the code puts where a number or a span is meant. */
  lemma Parted(l: Elem, f: Elem, c: char, w: string, a: seq<Elem>, b: seq<Elem>) returns (v: string)
    requires IsByte(c) && Accepts(f, c) && !Accepts(l, c) && !l.Star? && IsText(w) && Tight(b, w, false)
    ensures IsText(v) && Tight([f] + b, v, false) && !Tight([l] + a, v, true)
  {
    TextCons(c, w);
    TailOf(l, a);
    TailOf(f, b);
    v := [c] + w;
  }

  /** No star run before a number sign or white space, no number sign before something that can take a digit, no white
      space before something that can take white space; or an empty or unclosed class, and so no match at all. */
  ghost predicate MatchedAsDocumented(p: string) {
    !Satisfiable(Documented(p)) || (!Collides(p, false) && Safe(Documented(p)))
  }

  /** The code agrees with its comment on every text if and only if the pattern meets that condition. */
  lemma DocumentedExactly(p: string)
    ensures (forall z :: IsText(z) ==> (Matches(Parse(p, false), z) <==> Means(Documented(p), z))) <==>
      MatchedAsDocumented(p)
  {
    hide Matches, Means, Safe, Satisfiable, Tight, Parse, Documented, Collides;
    var a, b := Parse(p, false), Documented(p);
    ReadingsCompare(p, false);
    if !Satisfiable(b) {
      forall z | IsText(z) ensures !Means(b, z) && !Matches(a, z) {
        UnsatisfiableMeansNothing(b, z);
        UnsatisfiableMeansNothing(a, z);
        if Matches(a, z) { MatchesMeans(a, z); }
      }
    } else if Collides(p, false) {
      var w := CollisionWitness(p, false);
      TightMeans(b, w);
      TightLength(b, w, false);
      if Matches(a, w) { ShortIsTight(a, w); }
      assert Means(b, w) && !Matches(a, w);
    } else {
      ReadAsDocumented(p, false);
      LongestIsEnoughExactly(b);
    }
  }

  /** testcase_glob on a pattern that meets the condition. */
  method GlobAsDocumented(zGlob: string, z: string) returns (ok: bool)
    requires MatchedAsDocumented(zGlob) && IsText(z)
    ensures ok <==> Means(Documented(zGlob), z)
  {
    hide MatchedAsDocumented;
    DocumentedExactly(zGlob);
    ok := TestcaseGlob(zGlob, z);
  }

  /** A number sign before a digit: "#5" is meant to match "55", and does not. */
  lemma NumberBeforeDigit()
    ensures !MatchedAsDocumented("#5") && Means(Documented("#5"), "55") && !Matches(Parse("#5", false), "55")
  {
    var p, es := "#5", [Digits, Lit('5')];
    assert p[1..] == "5" && p[1..][1..] == "";
    assert Parse("5", false) == [Lit('5')] && Parse(p, false) == es;
    assert Documented("5") == [Lit('5')] && Documented(p) == es;
    assert es[1..] == [Lit('5')] && es[1..][1..] == [];
    var z := "55";
    assert z[1..] == "5" && z[1..][1..] == "";
    assert Tight(es, z, false) && !Tight(es, z, true);
    TightMeans(es, z);
    if Matches(es, z) { ShortIsTight(es, z); }
    DocumentedExactly(p);
    assert IsText(z);
  }
}
