/** The list of a character class in testcase_glob's patterns (sqlite/shell.c), as singles and ranges. */
module GlobList {
  import opened Core

  /** Characters compare as signed bytes. */
  function Code(c: char): int { if c as int < 128 then c as int else c as int - 256 }

  datatype Piece = Single(c: char) | Range(lo: char, hi: char)

  /** A piece takes its character, or those from its first to its last. */
  predicate Takes(x: int, p: Piece) {
    match p
    case Single(c) => x == Code(c)
    case Range(lo, hi) => x == Code(lo) || Code(lo) <= x <= Code(hi)
  }

  predicate Covers(ps: seq<Piece>, x: int) { exists k :: 0 <= k < |ps| && Takes(x, ps[k]) }

  function PieceText(p: Piece): string {
    match p case Single(c) => [c] case Range(lo, hi) => [lo] + "-" + [hi]
  }

  function ListText(ps: seq<Piece>): string {
    if ps == [] then "" else PieceText(ps[0]) + ListText(ps[1..])
  }

  function First(p: Piece): char { match p case Single(c) => c case Range(lo, _) => lo }

  /** Neither piece has a closing bracket, and a range begins with an ASCII character. */
  predicate Plain(p: Piece) {
    match p case Single(c) => c != ']' case Range(lo, hi) => lo != ']' && hi != ']' && Code(lo) > 0
  }

  /** No single is read as the beginning of a range: a dash after an ASCII character stands last. */
  predicate Clean(ps: seq<Piece>) {
    ps == [] || (
      && Plain(ps[0]) && Clean(ps[1..])
      && (ps[0].Single? && Code(ps[0].c) > 0 && |ps| > 1 && First(ps[1]) == '-' ==> ps[1..] == [Single('-')]))
  }

  /** Reads pieces up to the closing bracket. */
  function Pieces(p: string): (r: Option<(seq<Piece>, string)>)
    ensures r.Some? ==> |r.value.1| < |p|
    decreases |p|
  {
    if p == "" then None
    else if p[0] == ']' then Some(([], p[1..]))
    else if |p| > 2 && Code(p[0]) > 0 && p[1] == '-' && p[2] != ']' then
      match Pieces(p[3..])
      case None => None
      case Some(q) => Some(([Range(p[0], p[2])] + q.0, q.1))
    else
      match Pieces(p[1..])
      case None => None
      case Some(q) => Some(([Single(p[0])] + q.0, q.1))
  }

  /** A closing bracket that comes first belongs to the list, and no range begins with it. */
  function Enclosed(q: string): (r: Option<(seq<Piece>, string)>)
    ensures r.Some? ==> |r.value.1| < |q|
  {
    if q != "" && q[0] == ']' then
      match Pieces(q[1..])
      case None => None
      case Some(r) => Some(([Single(']')] + r.0, r.1))
    else Pieces(q)
  }

  // ---------------------------------------------------------------- lists there and back

  lemma TextFirst(ps: seq<Piece>, rest: string)
    requires ps != []
    ensures ListText(ps) != "" && ListText(ps)[0] == First(ps[0])
    ensures ListText(ps) + "]" + rest == PieceText(ps[0]) + (ListText(ps[1..]) + "]" + rest)
  {
  }

  /** A clean list is read back from its text. */
  lemma {:induction false} PiecesBack(ps: seq<Piece>, rest: string)
    requires Clean(ps)
    ensures Pieces(ListText(ps) + "]" + rest) == Some((ps, rest))
    decreases |ps|
  {
    var t := ListText(ps) + "]" + rest;
    if ps == [] {
      assert t == "]" + rest && t[1..] == rest;
    } else {
      PiecesBack(ps[1..], rest);
      TextFirst(ps, rest);
      var tail := ListText(ps[1..]) + "]" + rest;
      assert ps == [ps[0]] + ps[1..];
      hide ListText;
      match ps[0]
      case Single(c) =>
        assert t == [c] + tail && t[1..] == tail;
        NoRange(ps, rest);
      case Range(lo, hi) =>
        assert t == [lo] + "-" + [hi] + tail && t[3..] == tail;
    }
  }

  /** After a single comes no dash that would make it a range. */
  lemma NoRange(ps: seq<Piece>, rest: string)
    requires Clean(ps) && ps != [] && ps[0].Single?
    ensures var tail := ListText(ps[1..]) + "]" + rest;
      !(|tail| > 1 && Code(ps[0].c) > 0 && tail[0] == '-' && tail[1] != ']')
  {
    if |ps| > 1 {
      TextFirst(ps[1..], rest);
      if Code(ps[0].c) > 0 && First(ps[1]) == '-' {
        assert ps[1..] == [Single('-')] && ListText([Single('-')]) == "-";
      }
    }
  }

  /** And every closed list is the text of exactly one clean list. */
  lemma {:induction false} EveryListIsClean(p: string)
    requires Pieces(p).Some?
    ensures var r := Pieces(p).value; p == ListText(r.0) + "]" + r.1 && Clean(r.0)
    decreases |p|
  {
    if p[0] == ']' {
      assert p == "]" + p[1..];
    } else if |p| > 2 && Code(p[0]) > 0 && p[1] == '-' && p[2] != ']' {
      EveryListIsClean(p[3..]);
      var q := Pieces(p[3..]).value;
      var ps := [Range(p[0], p[2])] + q.0;
      assert ps[1..] == q.0 && p == [p[0]] + "-" + [p[2]] + p[3..];
      TextFirst(ps, q.1);
    } else {
      EveryListIsClean(p[1..]);
      var q := Pieces(p[1..]).value;
      var ps := [Single(p[0])] + q.0;
      assert ps[1..] == q.0 && p == [p[0]] + p[1..];
      TextFirst(ps, q.1);
      if q.0 != [] {
        TextFirst(q.0, q.1);
        assert p[1] == First(q.0[0]);
        if Code(p[0]) > 0 && p[1] == '-' { DashIsLast(q.0, q.1, p[1..]); }
      }
    }
  }

  /** A list whose text begins with a dash and then the closing bracket is that dash. */
  lemma DashIsLast(ps: seq<Piece>, rest: string, p: string)
    requires ps != [] && Clean(ps) && p == ListText(ps) + "]" + rest && p[0] == '-' && (|p| > 1 ==> p[1] == ']')
    ensures ps == [Single('-')]
  {
    TextFirst(ps, rest);
    if |ps| > 1 { TextFirst(ps[1..], rest); }
  }
}
