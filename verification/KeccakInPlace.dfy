/** The body of KeccakF1600Step (sqlite/shell.c): four rounds unrolled over one 25-lane array, each
    writing its result over its input, so that lanes wander and come home after the fourth. */
module KeccakInPlace {
  import opened Keccak

  /** Where lane (x, y) is kept: entry 5*y + x is an index into the array. Each index occurs once. */
  ghost predicate IsLayout(l: seq<nat>) {
    && |l| == 25
    && (forall i :: 0 <= i < 25 ==> l[i] < 25)
    && (forall i, j :: 0 <= i < 25 && 0 <= j < 25 && l[i] == l[j] ==> i == j)
  }

  /** The lanes in the order of FIPS 202, seen through a layout. */
  ghost function View(s: seq<Lane>, l: seq<nat>): (v: Lanes)
    requires |s| == 25 && IsLayout(l)
    ensures forall i :: 0 <= i < 25 ==> v[i] == s[l[i]]
  {
    seq(25, i requires 0 <= i < 25 => s[l[i]])
  }

  // ---------------------------------------------------------------- one row: five lanes in, five lanes out

  /** B of a row: the lane in column p of row y, xored with D[p] and rotated. */
  function RowB(v: Lanes, d: seq<Lane>, y: nat, p: nat, r: bv6): Lane
    requires |d| == 5 && y < 5 && p < 5
  {
    Rol(Xor(v[5 * y + p], d[p]), r)
  }

  /** The row holds the five combinations of what was read, and nothing else has changed. */
  ghost predicate RowWritten(v: Lanes, w: Lanes, d: seq<Lane>, y: nat, p: seq<nat>, r: seq<bv6>)
    requires |d| == 5 && y < 5 && |p| == 5 && |r| == 5
    requires p[0] < 5 && p[1] < 5 && p[2] < 5 && p[3] < 5 && p[4] < 5
  {
    var b0 := RowB(v, d, y, p[0], r[0]);
    var b1 := RowB(v, d, y, p[1], r[1]);
    var b2 := RowB(v, d, y, p[2], r[2]);
    var b3 := RowB(v, d, y, p[3], r[3]);
    var b4 := RowB(v, d, y, p[4], r[4]);
    && (forall i :: 0 <= i < 25 && !(5 * y <= i < 5 * y + 5) ==> w[i] == v[i])
    && w[5 * y] == Xor(b0, AndNot(b1, b2))
    && w[5 * y + 1] == Xor(b1, AndNot(b2, b3))
    && w[5 * y + 2] == Xor(b2, AndNot(b3, b4))
    && w[5 * y + 3] == Xor(b3, AndNot(b4, b0))
    && w[5 * y + 4] == Xor(b4, AndNot(b0, b1))
  }

  /** Reads the five lanes at p0..p4 of row y, then writes five lanes over the row. */
  method Row(a: array<Lane>, l: seq<nat>, d: seq<Lane>, y: nat, p: seq<nat>, r: seq<bv6>)
    requires a.Length == 25 && IsLayout(l) && |d| == 5 && y < 5 && |p| == 5 && |r| == 5
    requires p[0] < 5 && p[1] < 5 && p[2] < 5 && p[3] < 5 && p[4] < 5
    modifies a
    ensures RowWritten(View(old(a[..]), l), View(a[..], l), d, y, p, r)
  {
    hide Xor, AndNot, Rol;
    var b0 := Rol(Xor(a[l[5 * y + p[0]]], d[p[0]]), r[0]);
    var b1 := Rol(Xor(a[l[5 * y + p[1]]], d[p[1]]), r[1]);
    var b2 := Rol(Xor(a[l[5 * y + p[2]]], d[p[2]]), r[2]);
    var b3 := Rol(Xor(a[l[5 * y + p[3]]], d[p[3]]), r[3]);
    var b4 := Rol(Xor(a[l[5 * y + p[4]]], d[p[4]]), r[4]);
    WriteRow(a, l, y, Xor(b0, AndNot(b1, b2)), Xor(b1, AndNot(b2, b3)), Xor(b2, AndNot(b3, b4)),
             Xor(b3, AndNot(b4, b0)), Xor(b4, AndNot(b0, b1)));
  }

  method WriteRow(a: array<Lane>, l: seq<nat>, y: nat, e0: Lane, e1: Lane, e2: Lane, e3: Lane, e4: Lane)
    requires a.Length == 25 && IsLayout(l) && y < 5
    modifies a
    ensures forall i :: 0 <= i < 25 && !(5 * y <= i < 5 * y + 5) ==> View(a[..], l)[i] == View(old(a[..]), l)[i]
    ensures View(a[..], l)[5 * y] == e0 && View(a[..], l)[5 * y + 1] == e1 && View(a[..], l)[5 * y + 2] == e2
    ensures View(a[..], l)[5 * y + 3] == e3 && View(a[..], l)[5 * y + 4] == e4
  {
    a[l[5 * y]] := e0;
    a[l[5 * y + 1]] := e1;
    a[l[5 * y + 2]] := e2;
    a[l[5 * y + 3]] := e3;
    a[l[5 * y + 4]] := e4;
  }

  // ---------------------------------------------------------------- the round of FIPS 202, lane by lane

  /** Lane (x, y) after steps theta and rho. */
  function Moved(v: Lanes, x: nat, y: nat): Lane
    requires x < 5 && y < 5
  {
    Rol(Xor(At(v, x, y), ThetaEffect(v, x)), Offset(5 * y + x))
  }

  /** Lane (x, y) after step pi. */
  function Arrived(v: Lanes, x: nat, y: nat): Lane
    requires x < 5 && y < 5
  {
    Moved(v, (x + 3 * y) % 5, x)
  }

  lemma RoundLane(v: Lanes, ir: nat, x: nat, y: nat)
    requires ir < 24 && x < 5 && y < 5
    ensures var chi := Xor(Arrived(v, x, y), AndNot(Arrived(v, (x + 1) % 5, y), Arrived(v, (x + 2) % 5, y)));
      At(Round(v, ir), x, y) == if x == 0 && y == 0 then Xor(chi, Lane(RC(ir))) else chi
  {
    hide Xor, AndNot, Rol, Offset, ThetaEffect, RC, Theta, Rho, Pi, Chi;
    var t := Theta(v);
    var r := Rho(t);
    var b := Pi(r);
    forall u | 0 <= u < 5 ensures At(b, u, y) == Arrived(v, u, y) {
      PiAt(r, u, y);
      RhoAt(t, (u + 3 * y) % 5, u);
      ThetaAt(v, (u + 3 * y) % 5, u);
    }
    ChiAt(b, x, y);
  }

  /** Lane (x, y) of the round, before the round constant. */
  function RowLane(v: Lanes, x: nat, y: nat): Lane
    requires x < 5 && y < 5
  {
    Xor(Arrived(v, x, y), AndNot(Arrived(v, (x + 1) % 5, y), Arrived(v, (x + 2) % 5, y)))
  }

  // ---------------------------------------------------------------- one round in place

  /** Row y of the next layout holds, before the round, the lanes that step pi sends to row y. */
  ghost predicate InPlace(from: seq<nat>, to: seq<nat>)
    requires IsLayout(from) && IsLayout(to)
  {
    forall y, j :: 0 <= y < 5 && 0 <= j < 5 ==> Stays(from, to, y, j)
  }

  ghost predicate Stays(from: seq<nat>, to: seq<nat>, y: nat, j: nat)
    requires |from| == 25 && |to| == 25 && y < 5 && j < 5
  {
    to[5 * y + (j + 3 * y) % 5] == from[5 * j + (j + 3 * y) % 5]
  }

  ghost predicate ThetaIs(d: seq<Lane>, v: Lanes) {
    && |d| == 5
    && d[0] == ThetaEffect(v, 0) && d[1] == ThetaEffect(v, 1) && d[2] == ThetaEffect(v, 2)
    && d[3] == ThetaEffect(v, 3) && d[4] == ThetaEffect(v, 4)
  }

  /** What a row reads is what arrives in it. */
  lemma RowReads(s: seq<Lane>, t: seq<Lane>, from: seq<nat>, to: seq<nat>, d: seq<Lane>, y: nat, j: nat)
    requires |s| == 25 && |t| == 25 && IsLayout(from) && IsLayout(to) && InPlace(from, to) && y < 5 && j < 5
    requires ThetaIs(d, View(s, from))
    requires forall i :: 5 * y <= i < 5 * y + 5 ==> View(t, to)[i] == View(s, to)[i]
    ensures var p := (j + 3 * y) % 5;
      RowB(View(t, to), d, y, p, Offset(5 * j + p)) == Arrived(View(s, from), j, y)
  {
    hide Xor, Rol, Offset, ThetaEffect;
    var p := (j + 3 * y) % 5;
    assert Stays(from, to, y, j);
    var i, k := 5 * y + p, 5 * j + p;
    assert 0 <= i < 25 && 0 <= k < 25;
    assert View(t, to)[i] == s[to[i]];
    assert s[to[i]] == s[from[k]];
    assert View(s, from)[k] == s[from[k]];
  }

  /** Rows 0..n-1 are done, the others untouched. */
  ghost predicate RowsDone(s: seq<Lane>, t: seq<Lane>, from: seq<nat>, to: seq<nat>, ir: nat, n: nat)
    requires |s| == 25 && |t| == 25 && IsLayout(from) && IsLayout(to) && n <= 5 && ir < 24
  {
    && (forall i :: 5 * n <= i < 25 ==> View(t, to)[i] == View(s, to)[i])
    && (forall x, y :: 0 <= x < 5 && 0 <= y < n ==>
          At(View(t, to), x, y) == if x == 0 && y == 0 then Xor(RowLane(View(s, from), x, y), Lane(RC(ir)))
            else RowLane(View(s, from), x, y))
  }

  lemma AllRowsMakeTheRound(s: seq<Lane>, t: seq<Lane>, from: seq<nat>, to: seq<nat>, ir: nat)
    requires |s| == 25 && |t| == 25 && IsLayout(from) && IsLayout(to) && ir < 24
    requires RowsDone(s, t, from, to, ir, 5)
    ensures View(t, to) == Round(View(s, from), ir)
  {
    hide Xor, AndNot, RC, Arrived, Round;
    var v, w := View(s, from), View(t, to);
    forall i | 0 <= i < 25 ensures w[i] == Round(v, ir)[i] {
      var x, y := i % 5, i / 5;
      RoundLane(v, ir, x, y);
      assert w[i] == At(w, x, y);
    }
  }

  /** The sum of column x. */
  method ColumnSum(a: array<Lane>, from: seq<nat>, x: nat) returns (c: Lane)
    requires a.Length == 25 && IsLayout(from) && x < 5
    ensures c == Parity(View(a[..], from), x)
  {
    hide Xor;
    c := Xor(Xor(Xor(Xor(a[from[x]], a[from[5 + x]]), a[from[10 + x]]), a[from[15 + x]]), a[from[20 + x]]);
  }

  /** The columns of the array, summed and spread: C0..C4, then D0..D4. */
  method Columns(a: array<Lane>, from: seq<nat>) returns (d: seq<Lane>)
    requires a.Length == 25 && IsLayout(from)
    ensures |d| == 5 && ThetaIs(d, View(a[..], from))
  {
    hide Xor, Rol, Parity, View, IsLayout;
    var c0 := ColumnSum(a, from, 0);
    var c1 := ColumnSum(a, from, 1);
    var c2 := ColumnSum(a, from, 2);
    var c3 := ColumnSum(a, from, 3);
    var c4 := ColumnSum(a, from, 4);
    d := [Xor(c4, Rol(c1, 1)), Xor(c0, Rol(c2, 1)), Xor(c1, Rol(c3, 1)), Xor(c2, Rol(c4, 1)), Xor(c3, Rol(c0, 1))];
  }

  lemma Untouched(s: seq<Lane>, to: seq<nat>, from: seq<nat>, ir: nat)
    requires |s| == 25 && IsLayout(from) && IsLayout(to) && ir < 24
    ensures RowsDone(s, s, from, to, ir, 0)
  {
  }

  /** One more row, given the five values it read. */
  lemma RowAdded(s: seq<Lane>, t: seq<Lane>, u: seq<Lane>, from: seq<nat>, to: seq<nat>, ir: nat, y: nat)
    requires |s| == 25 && |t| == 25 && |u| == 25 && IsLayout(from) && IsLayout(to) && ir < 24 && y < 5
    requires RowsDone(s, t, from, to, ir, y)
    requires forall i :: 0 <= i < 25 && !(5 * y <= i < 5 * y + 5) ==> View(u, to)[i] == View(t, to)[i]
    requires forall x :: 0 <= x < 5 ==>
      View(u, to)[5 * y + x] == if x == 0 && y == 0 then Xor(RowLane(View(s, from), x, y), Lane(RC(ir)))
        else RowLane(View(s, from), x, y)
    ensures RowsDone(s, u, from, to, ir, y + 1)
  {
    hide Xor, RowLane, RC;
    var w := View(u, to);
    forall x, v | 0 <= x < 5 && 0 <= v < y + 1
      ensures At(w, x, v) == if x == 0 && v == 0 then Xor(RowLane(View(s, from), x, v), Lane(RC(ir)))
        else RowLane(View(s, from), x, v)
    {
      if v < y {
        assert w[5 * v + x] == View(t, to)[5 * v + x];
        assert At(View(t, to), x, v) == At(w, x, v);
      }
    }
  }

  /** The offsets that the source writes out, in the order in which each row reads its lanes. */
  lemma OffsetsWritten()
    ensures Offset(0) == 0 && Offset(6) == 44 && Offset(12) == 43 && Offset(18) == 21 && Offset(24) == 14
    ensures Offset(3) == 28 && Offset(9) == 20 && Offset(10) == 3 && Offset(16) == 45 && Offset(22) == 61
    ensures Offset(1) == 1 && Offset(7) == 6 && Offset(13) == 25 && Offset(19) == 8 && Offset(20) == 18
    ensures Offset(4) == 27 && Offset(5) == 36 && Offset(11) == 10 && Offset(17) == 15 && Offset(23) == 56
    ensures Offset(2) == 62 && Offset(8) == 55 && Offset(14) == 39 && Offset(15) == 41 && Offset(21) == 2
  {
  }

  lemma RowRead(s: seq<Lane>, t: seq<Lane>, from: seq<nat>, to: seq<nat>, d: seq<Lane>, y: nat, p: seq<nat>,
      r: seq<bv6>)
    requires |s| == 25 && |t| == 25 && IsLayout(from) && IsLayout(to) && InPlace(from, to) && y < 5
    requires |p| == 5 && |r| == 5 && ThetaIs(d, View(s, from))
    requires forall j :: 0 <= j < 5 ==> p[j] == (j + 3 * y) % 5 && r[j] == Offset(5 * j + p[j])
    requires forall i :: 5 * y <= i < 25 ==> View(t, to)[i] == View(s, to)[i]
    ensures forall j :: 0 <= j < 5 ==> p[j] < 5 && RowB(View(t, to), d, y, p[j], r[j]) == Arrived(View(s, from), j, y)
  {
    hide Offset, Arrived, ThetaEffect, RowB;
    forall j | 0 <= j < 5 ensures p[j] < 5 && RowB(View(t, to), d, y, p[j], r[j]) == Arrived(View(s, from), j, y) {
      RowReads(s, t, from, to, d, y, j);
    }
  }

  ghost predicate ReadsInOrder(y: nat, p: seq<nat>, r: seq<bv6>) {
    |p| == 5 && |r| == 5 && forall j :: 0 <= j < 5 ==> p[j] == (j + 3 * y) % 5 && r[j] == Offset(5 * j + p[j])
  }

  /** A written row is a row of the round. */
  lemma RowIsRound(s: seq<Lane>, t: seq<Lane>, w: Lanes, from: seq<nat>, to: seq<nat>, d: seq<Lane>, y: nat,
      p: seq<nat>, r: seq<bv6>)
    requires |s| == 25 && |t| == 25 && IsLayout(from) && IsLayout(to) && InPlace(from, to) && y < 5
    requires ReadsInOrder(y, p, r) && ThetaIs(d, View(s, from))
    requires forall i :: 5 * y <= i < 25 ==> View(t, to)[i] == View(s, to)[i]
    requires RowWritten(View(t, to), w, d, y, p, r)
    ensures forall x :: 0 <= x < 5 ==> At(w, x, y) == RowLane(View(s, from), x, y)
  {
    hide Xor, AndNot, Offset, Arrived, ThetaEffect, RowB, InPlace, IsLayout;
    RowRead(s, t, from, to, d, y, p, r);
    var v, u := View(s, from), View(t, to);
    assert RowB(u, d, y, p[0], r[0]) == Arrived(v, 0, y) && RowB(u, d, y, p[1], r[1]) == Arrived(v, 1, y);
    assert RowB(u, d, y, p[2], r[2]) == Arrived(v, 2, y) && RowB(u, d, y, p[3], r[3]) == Arrived(v, 3, y);
    assert RowB(u, d, y, p[4], r[4]) == Arrived(v, 4, y);
    FiveLanes(v, w, y);
  }

  lemma FiveLanes(v: Lanes, w: Lanes, y: nat)
    requires y < 5
    requires w[5 * y] == Xor(Arrived(v, 0, y), AndNot(Arrived(v, 1, y), Arrived(v, 2, y)))
    requires w[5 * y + 1] == Xor(Arrived(v, 1, y), AndNot(Arrived(v, 2, y), Arrived(v, 3, y)))
    requires w[5 * y + 2] == Xor(Arrived(v, 2, y), AndNot(Arrived(v, 3, y), Arrived(v, 4, y)))
    requires w[5 * y + 3] == Xor(Arrived(v, 3, y), AndNot(Arrived(v, 4, y), Arrived(v, 0, y)))
    requires w[5 * y + 4] == Xor(Arrived(v, 4, y), AndNot(Arrived(v, 0, y), Arrived(v, 1, y)))
    ensures forall x :: 0 <= x < 5 ==> At(w, x, y) == RowLane(v, x, y)
  {
    hide Xor, AndNot, Arrived;
    forall x | 0 <= x < 5 ensures At(w, x, y) == RowLane(v, x, y) {
      if x == 0 { } else if x == 1 { } else if x == 2 { } else if x == 3 { } else { }
    }
  }

  /** One more row done. */
  lemma NextRow(s: seq<Lane>, t: seq<Lane>, u: seq<Lane>, from: seq<nat>, to: seq<nat>, d: seq<Lane>, ir: nat,
      y: nat, p: seq<nat>, r: seq<bv6>)
    requires |s| == 25 && |t| == 25 && |u| == 25 && IsLayout(from) && IsLayout(to) && InPlace(from, to) && ir < 24
    requires 0 < y < 5
    requires ReadsInOrder(y, p, r) && ThetaIs(d, View(s, from))
    requires RowsDone(s, t, from, to, ir, y) && RowWritten(View(t, to), View(u, to), d, y, p, r)
    ensures RowsDone(s, u, from, to, ir, y + 1)
  {
    hide Xor, AndNot, Offset, RC, ThetaEffect, RowB, RowLane, InPlace, IsLayout;
    RowIsRound(s, t, View(u, to), from, to, d, y, p, r);
    RowAdded(s, t, u, from, to, ir, y);
  }

  /** The first row, and the round constant on its first lane. */
  lemma FirstRow(s: seq<Lane>, t: seq<Lane>, u: seq<Lane>, from: seq<nat>, to: seq<nat>, d: seq<Lane>, ir: nat,
      p: seq<nat>, r: seq<bv6>)
    requires |s| == 25 && |t| == 25 && |u| == 25 && IsLayout(from) && IsLayout(to) && InPlace(from, to) && ir < 24
    requires ReadsInOrder(0, p, r) && ThetaIs(d, View(s, from))
    requires RowWritten(View(s, to), View(t, to), d, 0, p, r)
    requires u == t[to[0] := Xor(t[to[0]], Lane(RC(ir)))]
    ensures RowsDone(s, u, from, to, ir, 1)
  {
    hide Xor, AndNot, Offset, RC, ThetaEffect, RowB, RowLane, InPlace;
    RowIsRound(s, s, View(t, to), from, to, d, 0, p, r);
    forall i | 0 <= i < 25 ensures View(u, to)[i] == if i == 0 then Xor(View(t, to)[0], Lane(RC(ir)))
      else View(t, to)[i] { }
    forall x | 0 <= x < 5 ensures View(t, to)[x] == RowLane(View(s, from), x, 0) {
      assert At(View(t, to), x, 0) == View(t, to)[x];
    }
    Untouched(s, to, from, ir);
    RowAdded(s, s, u, from, to, ir, 0);
  }

  lemma ReadOrders()
    ensures ReadsInOrder(0, [0, 1, 2, 3, 4], [0, 44, 43, 21, 14])
    ensures ReadsInOrder(1, [3, 4, 0, 1, 2], [28, 20, 3, 45, 61])
    ensures ReadsInOrder(2, [1, 2, 3, 4, 0], [1, 6, 25, 8, 18])
    ensures ReadsInOrder(3, [4, 0, 1, 2, 3], [27, 36, 10, 15, 56])
    ensures ReadsInOrder(4, [2, 3, 4, 0, 1], [62, 55, 39, 41, 2])
  {
    OffsetsWritten();
    hide Offset;
  }

  /** One unrolled round: it reads the state through one layout and leaves the next state in another. */
  method RoundInPlace(a: array<Lane>, from: seq<nat>, to: seq<nat>, ir: nat)
    requires a.Length == 25 && IsLayout(from) && IsLayout(to) && InPlace(from, to) && ir < 24
    modifies a
    ensures View(a[..], to) == Round(View(old(a[..]), from), ir)
  {
    hide Xor, AndNot, Rol, Offset, RC, ThetaEffect, Round, RowsDone, RowWritten, InPlace, ReadsInOrder, ThetaIs, View;
    ReadOrders();
    ghost var s := a[..];
    var d := Columns(a, from);
    Row(a, to, d, 0, [0, 1, 2, 3, 4], [0, 44, 43, 21, 14]);
    ghost var t := a[..];
    a[to[0]] := Xor(a[to[0]], Lane(RC(ir)));
    ghost var s1 := a[..];
    FirstRow(s, t, s1, from, to, d, ir, [0, 1, 2, 3, 4], [0, 44, 43, 21, 14]);
    Row(a, to, d, 1, [3, 4, 0, 1, 2], [28, 20, 3, 45, 61]);
    ghost var s2 := a[..];
    NextRow(s, s1, s2, from, to, d, ir, 1, [3, 4, 0, 1, 2], [28, 20, 3, 45, 61]);
    Row(a, to, d, 2, [1, 2, 3, 4, 0], [1, 6, 25, 8, 18]);
    ghost var s3 := a[..];
    NextRow(s, s2, s3, from, to, d, ir, 2, [1, 2, 3, 4, 0], [1, 6, 25, 8, 18]);
    Row(a, to, d, 3, [4, 0, 1, 2, 3], [27, 36, 10, 15, 56]);
    ghost var s4 := a[..];
    NextRow(s, s3, s4, from, to, d, ir, 3, [4, 0, 1, 2, 3], [27, 36, 10, 15, 56]);
    Row(a, to, d, 4, [2, 3, 4, 0, 1], [62, 55, 39, 41, 2]);
    ghost var s5 := a[..];
    NextRow(s, s4, s5, from, to, d, ir, 4, [2, 3, 4, 0, 1], [62, 55, 39, 41, 2]);
    AllRowsMakeTheRound(s, s5, from, to, ir);
  }

  // ---------------------------------------------------------------- the four layouts of the unrolled loop

  const HOME: seq<nat> := [
     0,  1,  2,  3,  4,
     5,  6,  7,  8,  9,
    10, 11, 12, 13, 14,
    15, 16, 17, 18, 19,
    20, 21, 22, 23, 24]

  const AFTER1: seq<nat> := [   // A00 A11 A22 A33 A44, A20 A31 A42 A03 A14, ...
     0,  6, 12, 18, 24,
    10, 16, 22,  3,  9,
    20,  1,  7, 13, 19,
     5, 11, 17, 23,  4,
    15, 21,  2,  8, 14]

  const AFTER2: seq<nat> := [   // A00 A31 A12 A43 A24, A40 A21 A02 A33 A14, ...
     0, 16,  7, 23, 14,
    20, 11,  2, 18,  9,
    15,  6, 22, 13,  4,
    10,  1, 17,  8, 24,
     5, 21, 12,  3, 19]

  const AFTER3: seq<nat> := [   // A00 A21 A42 A13 A34, A30 A01 A22 A43 A14, ...
     0, 11, 22,  8, 19,
    15,  1, 12, 23,  9,
     5, 16,  2, 13, 24,
    20,  6, 17,  3, 14,
    10, 21,  7, 18,  4]

  /** A list with an inverse is a layout. */
  lemma Invertible(l: seq<nat>, inv: seq<nat>)
    requires |l| == 25 && |inv| == 25
    requires forall i :: 0 <= i < 25 ==> l[i] < 25 && inv[l[i]] == i
    ensures IsLayout(l)
  {
  }

  lemma HomeIsLayout()
    ensures IsLayout(HOME)
  {
    Invertible(HOME, [0, 1, 2, 3, 4, 5, 6, 7, 8, 9, 10, 11, 12, 13, 14, 15, 16, 17, 18, 19, 20, 21, 22, 23, 24]);
  }

  lemma After1IsLayout()
    ensures IsLayout(AFTER1)
  {
    Invertible(AFTER1, [0, 11, 22, 8, 19, 15, 1, 12, 23, 9, 5, 16, 2, 13, 24, 20, 6, 17, 3, 14, 10, 21, 7, 18, 4]);
  }

  lemma After2IsLayout()
    ensures IsLayout(AFTER2)
  {
    Invertible(AFTER2, [0, 16, 7, 23, 14, 20, 11, 2, 18, 9, 15, 6, 22, 13, 4, 10, 1, 17, 8, 24, 5, 21, 12, 3, 19]);
  }

  lemma After3IsLayout()
    ensures IsLayout(AFTER3)
  {
    Invertible(AFTER3, [0, 6, 12, 18, 24, 10, 16, 22, 3, 9, 20, 1, 7, 13, 19, 5, 11, 17, 23, 4, 15, 21, 2, 8, 14]);
  }

  /** The same condition with its indices worked out. */
  ghost predicate InPlaceListed(from: seq<nat>, to: seq<nat>)
    requires |from| == 25 && |to| == 25
  {
    && to[0] == from[0] && to[1] == from[6] && to[2] == from[12] && to[3] == from[18] && to[4] == from[24]
    && to[8] == from[3] && to[9] == from[9] && to[5] == from[10] && to[6] == from[16] && to[7] == from[22]
    && to[11] == from[1] && to[12] == from[7] && to[13] == from[13] && to[14] == from[19] && to[10] == from[20]
    && to[19] == from[4] && to[15] == from[5] && to[16] == from[11] && to[17] == from[17] && to[18] == from[23]
    && to[22] == from[2] && to[23] == from[8] && to[24] == from[14] && to[20] == from[15] && to[21] == from[21]
  }

  lemma ListedRow0(from: seq<nat>, to: seq<nat>, j: nat)
    requires |from| == 25 && |to| == 25 && InPlaceListed(from, to) && j < 5
    ensures Stays(from, to, 0, j)
  {
    if j == 0 { } else if j == 1 { } else if j == 2 { } else if j == 3 { } else { }
  }

  lemma ListedRow1(from: seq<nat>, to: seq<nat>, j: nat)
    requires |from| == 25 && |to| == 25 && InPlaceListed(from, to) && j < 5
    ensures Stays(from, to, 1, j)
  {
    if j == 0 { } else if j == 1 { } else if j == 2 { } else if j == 3 { } else { }
  }

  lemma ListedRow2(from: seq<nat>, to: seq<nat>, j: nat)
    requires |from| == 25 && |to| == 25 && InPlaceListed(from, to) && j < 5
    ensures Stays(from, to, 2, j)
  {
    if j == 0 { } else if j == 1 { } else if j == 2 { } else if j == 3 { } else { }
  }

  lemma ListedRow3(from: seq<nat>, to: seq<nat>, j: nat)
    requires |from| == 25 && |to| == 25 && InPlaceListed(from, to) && j < 5
    ensures Stays(from, to, 3, j)
  {
    if j == 0 { } else if j == 1 { } else if j == 2 { } else if j == 3 { } else { }
  }

  lemma ListedRow4(from: seq<nat>, to: seq<nat>, j: nat)
    requires |from| == 25 && |to| == 25 && InPlaceListed(from, to) && j < 5
    ensures Stays(from, to, 4, j)
  {
    if j == 0 { } else if j == 1 { } else if j == 2 { } else if j == 3 { } else { }
  }

  lemma ListedIsInPlace(from: seq<nat>, to: seq<nat>)
    requires IsLayout(from) && IsLayout(to) && InPlaceListed(from, to)
    ensures InPlace(from, to)
  {
    hide Stays, InPlaceListed;
    forall y, j | 0 <= y < 5 && 0 <= j < 5 ensures Stays(from, to, y, j) {
      if y == 0 { ListedRow0(from, to, j); } else if y == 1 { ListedRow1(from, to, j); }
      else if y == 2 { ListedRow2(from, to, j); } else if y == 3 { ListedRow3(from, to, j); }
      else { ListedRow4(from, to, j); }
    }
  }

  lemma FromHome()
    ensures IsLayout(HOME) && IsLayout(AFTER1) && InPlace(HOME, AFTER1)
  {
    HomeIsLayout();
    After1IsLayout();
    hide IsLayout;
    ListedIsInPlace(HOME, AFTER1);
  }

  lemma FromAfter1()
    ensures IsLayout(AFTER1) && IsLayout(AFTER2) && InPlace(AFTER1, AFTER2)
  {
    After1IsLayout();
    After2IsLayout();
    hide IsLayout;
    ListedIsInPlace(AFTER1, AFTER2);
  }

  lemma FromAfter2()
    ensures IsLayout(AFTER2) && IsLayout(AFTER3) && InPlace(AFTER2, AFTER3)
  {
    After2IsLayout();
    After3IsLayout();
    hide IsLayout;
    ListedIsInPlace(AFTER2, AFTER3);
  }

  lemma FromAfter3()
    ensures IsLayout(AFTER3) && IsLayout(HOME) && InPlace(AFTER3, HOME)
  {
    After3IsLayout();
    HomeIsLayout();
    hide IsLayout;
    ListedIsInPlace(AFTER3, HOME);
  }

  lemma SeenFromHome(s: seq<Lane>)
    requires |s| == 25
    ensures IsLayout(HOME) && View(s, HOME) == s
  {
    HomeIsLayout();
    forall i | 0 <= i < 25 ensures HOME[i] == i { }
  }

  lemma FourRounds(s: Lanes, i: nat, a: Lanes, b: Lanes, c: Lanes, d: Lanes)
    requires i + 4 <= 24
    requires a == Round(Rounds(s, i), i) && b == Round(a, i + 1) && c == Round(b, i + 2) && d == Round(c, i + 3)
    ensures d == Rounds(s, i + 4)
  {
    hide Round;
    assert a == Rounds(s, i + 1);
    assert b == Rounds(s, i + 2);
    assert c == Rounds(s, i + 3);
  }

  /** Six times four rounds in place are the 24 rounds of Keccak-f[1600], every lane back home. */
  method KeccakF1600Step(a: array<Lane>)
    requires a.Length == 25
    modifies a
    ensures a[..] == Rounds(old(a[..]), 24)
  {
    hide Round, Rounds, View, IsLayout, InPlace, HOME, AFTER1, AFTER2, AFTER3;
    FromHome(); FromAfter1(); FromAfter2(); FromAfter3();
    ghost var start := a[..];
    assert Rounds(start, 0) == start by { NoRounds(start); }
    var i := 0;
    while i < 24
      invariant i <= 24 && i % 4 == 0
      invariant a[..] == Rounds(start, i)
    {
      ghost var s0 := a[..];
      SeenFromHome(s0);
      RoundInPlace(a, HOME, AFTER1, i);
      ghost var v1 := View(a[..], AFTER1);
      RoundInPlace(a, AFTER1, AFTER2, i + 1);
      ghost var v2 := View(a[..], AFTER2);
      RoundInPlace(a, AFTER2, AFTER3, i + 2);
      ghost var v3 := View(a[..], AFTER3);
      RoundInPlace(a, AFTER3, HOME, i + 3);
      SeenFromHome(a[..]);
      FourRounds(start, i, v1, v2, v3, a[..]);
      i := i + 4;
    }
  }

  lemma NoRounds(s: Lanes)
    ensures Rounds(s, 0) == s
  {
  }
}
