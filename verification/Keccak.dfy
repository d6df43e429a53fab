/** KeccakF1600Step of sqlite/shell.c against the permutation Keccak-f[1600] of FIPS 202. */
module Keccak {

  /** A 64-bit lane. */
  datatype Lane = Lane(w: bv64)

  type Lanes = s: seq<Lane> | |s| == 25 witness seq(25, _ => Lane(0))   // lane (x, y) at 5*y + x

  function Xor(a: Lane, b: Lane): Lane { Lane(a.w ^ b.w) }

  function AndNot(a: Lane, b: Lane): Lane { Lane(!a.w & b.w) }

  /** Macro ROL64; a rotation by 0 is written out as the plain lane. */
  function Rol(v: Lane, n: bv6): Lane {
    if n == 0 then v else Lane((v.w << n) | (v.w >> (64 - n as bv7)))
  }

  /** Table RC: the round constants. */
  function RC(i: nat): bv64
    requires i < 24
  {
    match i
    case 0 => 0x0000000000000001 case 1 => 0x0000000000008082 case 2 => 0x800000000000808a
    case 3 => 0x8000000080008000 case 4 => 0x000000000000808b case 5 => 0x0000000080000001
    case 6 => 0x8000000080008081 case 7 => 0x8000000000008009 case 8 => 0x000000000000008a
    case 9 => 0x0000000000000088 case 10 => 0x0000000080008009 case 11 => 0x000000008000000a
    case 12 => 0x000000008000808b case 13 => 0x800000000000008b case 14 => 0x8000000000008089
    case 15 => 0x8000000000008003 case 16 => 0x8000000000008002 case 17 => 0x8000000000000080
    case 18 => 0x000000000000800a case 19 => 0x800000008000000a case 20 => 0x8000000080008081
    case 21 => 0x8000000000008080 case 22 => 0x0000000080000001
    case _ => 0x8000000080008008
  }

  /** Rotation offset of the lane at index i = 5*y + x. */
  function Offset(i: nat): bv6
    requires i < 25
  {
    match i
    case 0 => 0 case 1 => 1 case 2 => 62 case 3 => 28 case 4 => 27
    case 5 => 36 case 6 => 44 case 7 => 6 case 8 => 55 case 9 => 20
    case 10 => 3 case 11 => 10 case 12 => 43 case 13 => 25 case 14 => 39
    case 15 => 41 case 16 => 45 case 17 => 15 case 18 => 21 case 19 => 8
    case 20 => 18 case 21 => 2 case 22 => 61 case 23 => 56
    case _ => 14
  }

  // ---------------------------------------------------------------- the step mappings, lane by lane

  function Parity(a: Lanes, x: nat): Lane
    requires x < 5
  {
    Xor(Xor(Xor(Xor(a[x], a[5 + x]), a[10 + x]), a[15 + x]), a[20 + x])
  }

  function ThetaEffect(a: Lanes, x: nat): Lane
    requires x < 5
  {
    Xor(Parity(a, (x + 4) % 5), Rol(Parity(a, (x + 1) % 5), 1))
  }

  /** The state whose lane (x, y) is f(x, y). */
  function Build(f: (nat, nat) --> Lane): (b: Lanes)
    requires forall x, y :: 0 <= x < 5 && 0 <= y < 5 ==> f.requires(x, y)
    ensures forall x, y :: 0 <= x < 5 && 0 <= y < 5 ==> At(b, x, y) == f(x, y)
  {
    [f(0, 0), f(1, 0), f(2, 0), f(3, 0), f(4, 0)] + [f(0, 1), f(1, 1), f(2, 1), f(3, 1), f(4, 1)]
    + [f(0, 2), f(1, 2), f(2, 2), f(3, 2), f(4, 2)] + [f(0, 3), f(1, 3), f(2, 3), f(3, 3), f(4, 3)]
    + [f(0, 4), f(1, 4), f(2, 4), f(3, 4), f(4, 4)]
  }

  function At(a: Lanes, x: nat, y: nat): Lane
    requires x < 5 && y < 5
  {
    a[5 * y + x]
  }

  function ThetaLane(a: Lanes, x: nat, y: nat): Lane
    requires x < 5 && y < 5
  {
    Xor(At(a, x, y), ThetaEffect(a, x))
  }

  function Theta(a: Lanes): Lanes {
    Build((x, y) requires 0 <= x < 5 && 0 <= y < 5 => ThetaLane(a, x, y))
  }

  function RhoLane(a: Lanes, x: nat, y: nat): Lane
    requires x < 5 && y < 5
  {
    Rol(At(a, x, y), Offset(5 * y + x))
  }

  function Rho(a: Lanes): Lanes {
    Build((x, y) requires 0 <= x < 5 && 0 <= y < 5 => RhoLane(a, x, y))
  }

  function PiLane(a: Lanes, x: nat, y: nat): Lane
    requires x < 5 && y < 5
  {
    At(a, (x + 3 * y) % 5, x)
  }

  function Pi(a: Lanes): Lanes {
    Build((x, y) requires 0 <= x < 5 && 0 <= y < 5 => PiLane(a, x, y))
  }

  function ChiLane(a: Lanes, x: nat, y: nat): Lane
    requires x < 5 && y < 5
  {
    Xor(At(a, x, y), AndNot(At(a, (x + 1) % 5, y), At(a, (x + 2) % 5, y)))
  }

  function Chi(a: Lanes): Lanes {
    Build((x, y) requires 0 <= x < 5 && 0 <= y < 5 => ChiLane(a, x, y))
  }

  lemma ThetaAt(a: Lanes, x: nat, y: nat)
    requires x < 5 && y < 5
    ensures At(Theta(a), x, y) == ThetaLane(a, x, y)
  {
    hide ThetaLane;
  }

  lemma RhoAt(a: Lanes, x: nat, y: nat)
    requires x < 5 && y < 5
    ensures At(Rho(a), x, y) == RhoLane(a, x, y)
  {
    hide RhoLane;
  }

  lemma PiAt(a: Lanes, x: nat, y: nat)
    requires x < 5 && y < 5
    ensures At(Pi(a), x, y) == PiLane(a, x, y)
  {
    hide PiLane;
  }

  lemma ChiAt(a: Lanes, x: nat, y: nat)
    requires x < 5 && y < 5
    ensures At(Chi(a), x, y) == ChiLane(a, x, y)
  {
    hide ChiLane;
  }

  function Iota(a: Lanes, rc: Lane): Lanes {
    a[0 := Xor(a[0], rc)]
  }

  function Round(a: Lanes, ir: nat): Lanes
    requires ir < 24
  {
    Iota(Chi(Pi(Rho(Theta(a)))), Lane(RC(ir)))
  }

  /** The first `n` rounds. */
  function Rounds(a: Lanes, n: nat): Lanes
    requires n <= 24
  {
    if n == 0 then a else Round(Rounds(a, n - 1), n - 1)
  }

  // ---------------------------------------- the same mappings, bit by bit, as FIPS 202 has them

  predicate BitOf(w: bv64, z: bv6) { (w >> z) & 1 == 1 }

  predicate Bit(v: Lane, z: bv6) { BitOf(v.w, z) }

  lemma PlainXorBit(a: bv64, b: bv64, z: bv6)
    ensures BitOf(a ^ b, z) == (BitOf(a, z) != BitOf(b, z))
  {
  }

  lemma PlainAndNotBit(a: bv64, b: bv64, z: bv6)
    ensures BitOf(!a & b, z) == (!BitOf(a, z) && BitOf(b, z))
  {
  }

  lemma XorWord(a: Lane, b: Lane)
    ensures Xor(a, b).w == a.w ^ b.w
  {
  }

  lemma XorBit(a: Lane, b: Lane, z: bv6)
    ensures Bit(Xor(a, b), z) == (Bit(a, z) != Bit(b, z))
  {
    PlainXorBit(a.w, b.w, z);
    hide BitOf, Xor;
    assert Xor(a, b).w == a.w ^ b.w by { XorWord(a, b); }
  }

  lemma AndNotBit(a: Lane, b: Lane, z: bv6)
    ensures Bit(AndNot(a, b), z) == (!Bit(a, z) && Bit(b, z))
  {
    PlainAndNotBit(a.w, b.w, z);
    hide BitOf;
  }

  // one lemma for each literal rotation, so that each stays a small question about bits
  lemma Rol1Bit(v: Lane, z: bv6) ensures Bit(Rol(v, 1), z) == Bit(v, z - 1) { }
  lemma Rol62Bit(v: Lane, z: bv6) ensures Bit(Rol(v, 62), z) == Bit(v, z - 62) { }
  lemma Rol28Bit(v: Lane, z: bv6) ensures Bit(Rol(v, 28), z) == Bit(v, z - 28) { }
  lemma Rol27Bit(v: Lane, z: bv6) ensures Bit(Rol(v, 27), z) == Bit(v, z - 27) { }
  lemma Rol36Bit(v: Lane, z: bv6) ensures Bit(Rol(v, 36), z) == Bit(v, z - 36) { }
  lemma Rol44Bit(v: Lane, z: bv6) ensures Bit(Rol(v, 44), z) == Bit(v, z - 44) { }
  lemma Rol6Bit(v: Lane, z: bv6) ensures Bit(Rol(v, 6), z) == Bit(v, z - 6) { }
  lemma Rol55Bit(v: Lane, z: bv6) ensures Bit(Rol(v, 55), z) == Bit(v, z - 55) { }
  lemma Rol20Bit(v: Lane, z: bv6) ensures Bit(Rol(v, 20), z) == Bit(v, z - 20) { }
  lemma Rol3Bit(v: Lane, z: bv6) ensures Bit(Rol(v, 3), z) == Bit(v, z - 3) { }
  lemma Rol10Bit(v: Lane, z: bv6) ensures Bit(Rol(v, 10), z) == Bit(v, z - 10) { }
  lemma Rol43Bit(v: Lane, z: bv6) ensures Bit(Rol(v, 43), z) == Bit(v, z - 43) { }
  lemma Rol25Bit(v: Lane, z: bv6) ensures Bit(Rol(v, 25), z) == Bit(v, z - 25) { }
  lemma Rol39Bit(v: Lane, z: bv6) ensures Bit(Rol(v, 39), z) == Bit(v, z - 39) { }
  lemma Rol41Bit(v: Lane, z: bv6) ensures Bit(Rol(v, 41), z) == Bit(v, z - 41) { }
  lemma Rol45Bit(v: Lane, z: bv6) ensures Bit(Rol(v, 45), z) == Bit(v, z - 45) { }
  lemma Rol15Bit(v: Lane, z: bv6) ensures Bit(Rol(v, 15), z) == Bit(v, z - 15) { }
  lemma Rol21Bit(v: Lane, z: bv6) ensures Bit(Rol(v, 21), z) == Bit(v, z - 21) { }
  lemma Rol8Bit(v: Lane, z: bv6) ensures Bit(Rol(v, 8), z) == Bit(v, z - 8) { }
  lemma Rol18Bit(v: Lane, z: bv6) ensures Bit(Rol(v, 18), z) == Bit(v, z - 18) { }
  lemma Rol2Bit(v: Lane, z: bv6) ensures Bit(Rol(v, 2), z) == Bit(v, z - 2) { }
  lemma Rol61Bit(v: Lane, z: bv6) ensures Bit(Rol(v, 61), z) == Bit(v, z - 61) { }
  lemma Rol56Bit(v: Lane, z: bv6) ensures Bit(Rol(v, 56), z) == Bit(v, z - 56) { }
  lemma Rol14Bit(v: Lane, z: bv6) ensures Bit(Rol(v, 14), z) == Bit(v, z - 14) { }

  lemma PlainLane(v: Lane)
    ensures Rol(v, 0) == v
  {
  }

  lemma RolBitRow0(v: Lane, i: nat, z: bv6)
    requires 0 <= i < 5
    ensures Bit(Rol(v, Offset(i)), z) == Bit(v, z - Offset(i))
  {
    hide Bit, Rol;
    if i == 0 { PlainLane(v); }
    else if i == 1 { Rol1Bit(v, z); }
    else if i == 2 { Rol62Bit(v, z); }
    else if i == 3 { Rol28Bit(v, z); }
    else { Rol27Bit(v, z); }
  }

  lemma RolBitRow1(v: Lane, i: nat, z: bv6)
    requires 5 <= i < 10
    ensures Bit(Rol(v, Offset(i)), z) == Bit(v, z - Offset(i))
  {
    hide Bit, Rol;
    if i == 5 { Rol36Bit(v, z); }
    else if i == 6 { Rol44Bit(v, z); }
    else if i == 7 { Rol6Bit(v, z); }
    else if i == 8 { Rol55Bit(v, z); }
    else { Rol20Bit(v, z); }
  }

  lemma RolBitRow2(v: Lane, i: nat, z: bv6)
    requires 10 <= i < 15
    ensures Bit(Rol(v, Offset(i)), z) == Bit(v, z - Offset(i))
  {
    hide Bit, Rol;
    if i == 10 { Rol3Bit(v, z); }
    else if i == 11 { Rol10Bit(v, z); }
    else if i == 12 { Rol43Bit(v, z); }
    else if i == 13 { Rol25Bit(v, z); }
    else { Rol39Bit(v, z); }
  }

  lemma RolBitRow3(v: Lane, i: nat, z: bv6)
    requires 15 <= i < 20
    ensures Bit(Rol(v, Offset(i)), z) == Bit(v, z - Offset(i))
  {
    hide Bit, Rol;
    if i == 15 { Rol41Bit(v, z); }
    else if i == 16 { Rol45Bit(v, z); }
    else if i == 17 { Rol15Bit(v, z); }
    else if i == 18 { Rol21Bit(v, z); }
    else { Rol8Bit(v, z); }
  }

  lemma RolBitRow4(v: Lane, i: nat, z: bv6)
    requires 20 <= i < 25
    ensures Bit(Rol(v, Offset(i)), z) == Bit(v, z - Offset(i))
  {
    hide Bit, Rol;
    if i == 20 { Rol18Bit(v, z); }
    else if i == 21 { Rol2Bit(v, z); }
    else if i == 22 { Rol61Bit(v, z); }
    else if i == 23 { Rol56Bit(v, z); }
    else { Rol14Bit(v, z); }
  }

  /** Rotation moves bit z - n (modulo 64) to bit z, for the offsets in use. */
  lemma RolBit(v: Lane, i: nat, z: bv6)
    requires i < 25
    ensures Bit(Rol(v, Offset(i)), z) == Bit(v, z - Offset(i))
  {
    hide Bit, Rol, Offset;
    if i < 5 { RolBitRow0(v, i, z); }
    else if i < 10 { RolBitRow1(v, i, z); }
    else if i < 15 { RolBitRow2(v, i, z); }
    else if i < 20 { RolBitRow3(v, i, z); }
    else { RolBitRow4(v, i, z); }
  }

  predicate Odd(p: bool, q: bool) { p != q }

  predicate ParityBit(a: Lanes, x: nat, z: bv6)
    requires x < 5
  {
    Odd(Odd(Odd(Odd(Bit(a[x], z), Bit(a[5 + x], z)), Bit(a[10 + x], z)), Bit(a[15 + x], z)), Bit(a[20 + x], z))
  }

  lemma ParityBits(a: Lanes, x: nat, z: bv6)
    requires x < 5
    ensures Bit(Parity(a, x), z) == ParityBit(a, x, z)
  {
    hide Xor, Bit;
    var p := Xor(a[x], a[5 + x]);
    var q := Xor(p, a[10 + x]);
    var r := Xor(q, a[15 + x]);
    XorBit(a[x], a[5 + x], z);
    XorBit(p, a[10 + x], z);
    XorBit(q, a[15 + x], z);
    XorBit(r, a[20 + x], z);
  }

  /** Section 3.2.1: A'[x,y,z] = A[x,y,z] + C[x-1,z] + C[x+1,z-1]. */
  lemma ThetaBits(a: Lanes, x: nat, y: nat, z: bv6)
    requires x < 5 && y < 5
    ensures Bit(At(Theta(a), x, y), z) ==
      Odd(Bit(At(a, x, y), z), Odd(ParityBit(a, (x + 4) % 5, z), ParityBit(a, (x + 1) % 5, z - 1)))
  {
    ThetaAt(a, x, y);
    hide Xor, Bit, Rol, Parity, Theta;
    var l, r := Parity(a, (x + 4) % 5), Parity(a, (x + 1) % 5);
    XorBit(At(a, x, y), ThetaEffect(a, x), z);
    XorBit(l, Rol(r, 1), z);
    Rol1Bit(r, z);
    ParityBits(a, (x + 4) % 5, z);
    ParityBits(a, (x + 1) % 5, z - 1);
  }

  /** Section 3.2.2: A'[x,y,z] = A[x,y,z - offset(x,y)]. */
  lemma RhoBits(a: Lanes, x: nat, y: nat, z: bv6)
    requires x < 5 && y < 5
    ensures Bit(At(Rho(a), x, y), z) == Bit(At(a, x, y), z - Offset(5 * y + x))
  {
    RhoAt(a, x, y);
    hide Bit, Rol, Offset, Rho;
    RolBit(At(a, x, y), 5 * y + x, z);
  }

  /** The walk of algorithm 2: (1,0), then (x,y) to (y, 2x+3y). */
  function Walk(t: nat): (nat, nat) {
    if t == 0 then (1, 0)
    else
      var (x, y) := Walk(t - 1);
      (y, (2 * x + 3 * y) % 5)
  }

  /** The lane of step t, and the step of lane i. */
  predicate Visits(t: nat, i: nat) { Walk(t) == (i % 5, i / 5) }

  lemma WalkLanes()
    ensures Visits(0, 1) && Visits(1, 10) && Visits(2, 7) && Visits(3, 11) && Visits(4, 17) && Visits(5, 18)
    ensures Visits(6, 3) && Visits(7, 5) && Visits(8, 16) && Visits(9, 8) && Visits(10, 21) && Visits(11, 24)
    ensures Visits(12, 4) && Visits(13, 15) && Visits(14, 23) && Visits(15, 19) && Visits(16, 13) && Visits(17, 12)
    ensures Visits(18, 2) && Visits(19, 20) && Visits(20, 14) && Visits(21, 22) && Visits(22, 9) && Visits(23, 6)
  {
    assert Walk(0) == (1, 0); assert Walk(1) == (0, 2); assert Walk(2) == (2, 1); assert Walk(3) == (1, 2);
    assert Walk(4) == (2, 3); assert Walk(5) == (3, 3); assert Walk(6) == (3, 0); assert Walk(7) == (0, 1);
    assert Walk(8) == (1, 3); assert Walk(9) == (3, 1); assert Walk(10) == (1, 4); assert Walk(11) == (4, 4);
    assert Walk(12) == (4, 0); assert Walk(13) == (0, 3); assert Walk(14) == (3, 4); assert Walk(15) == (4, 3);
    assert Walk(16) == (3, 2); assert Walk(17) == (2, 2); assert Walk(18) == (2, 0); assert Walk(19) == (0, 4);
    assert Walk(20) == (4, 2); assert Walk(21) == (2, 4); assert Walk(22) == (4, 1); assert Walk(23) == (1, 1);
  }

  /** Section 3.2.2, algorithm 2: the t-th lane of the walk is rotated by (t+1)(t+2)/2, lane (0,0) by 0,
      and the walk reaches every other lane. */
  lemma OffsetsFollowTheWalk(i: nat) returns (t: nat)
    requires i < 25
    ensures i == 0 ==> Offset(i) == 0
    ensures i != 0 ==> t < 24 && Visits(t, i) && Offset(i) as nat == (t + 1) * (t + 2) / 2 % 64
  {
    hide Walk;
    WalkLanes();
    t := if i == 1 then 0 else if i == 2 then 18 else if i == 3 then 6 else if i == 4 then 12
      else if i == 5 then 7 else if i == 6 then 23 else if i == 7 then 2 else if i == 8 then 9
      else if i == 9 then 22 else if i == 10 then 1 else if i == 11 then 3 else if i == 12 then 17
      else if i == 13 then 16 else if i == 14 then 20 else if i == 15 then 13 else if i == 16 then 8
      else if i == 17 then 4 else if i == 18 then 5 else if i == 19 then 15 else if i == 20 then 19
      else if i == 21 then 10 else if i == 22 then 21 else if i == 23 then 14 else 11;
  }

  /** Section 3.2.3: A'[x,y,z] = A[(x+3y) mod 5, x, z]. */
  lemma PiBits(a: Lanes, x: nat, y: nat, z: bv6)
    requires x < 5 && y < 5
    ensures Bit(At(Pi(a), x, y), z) == Bit(At(a, (x + 3 * y) % 5, x), z)
  {
    PiAt(a, x, y);
    hide Bit, Pi;
  }

  /** Section 3.2.4: A'[x,y,z] = A[x,y,z] + (A[x+1,y,z] + 1) A[x+2,y,z]. */
  lemma ChiBits(a: Lanes, x: nat, y: nat, z: bv6)
    requires x < 5 && y < 5
    ensures Bit(At(Chi(a), x, y), z) ==
      Odd(Bit(At(a, x, y), z), !Bit(At(a, (x + 1) % 5, y), z) && Bit(At(a, (x + 2) % 5, y), z))
  {
    ChiAt(a, x, y);
    hide Xor, Bit, AndNot, Chi;
    var l, r := At(a, (x + 1) % 5, y), At(a, (x + 2) % 5, y);
    XorBit(At(a, x, y), AndNot(l, r), z);
    AndNotBit(l, r, z);
  }

  /** Section 3.2.5, algorithm 5: the register after t steps, bit i of the byte being R[i]. */
  function Register(t: nat): bv8 {
    if t == 0 then 1 else Shift(Register(t - 1))
  }

  function Shift(r: bv8): bv8 {
    (r << 1) ^ (if r & 0x80 != 0 then 0x71 else 0)
  }

  /** Bit 2^j - 1 of the round constant is rc(j + 7 ir); `r` is the register after 7 ir steps. */
  function ConstantFrom(r: bv8): bv64 {
    var r1 := Shift(r); var r2 := Shift(r1); var r3 := Shift(r2);
    var r4 := Shift(r3); var r5 := Shift(r4); var r6 := Shift(r5);
    (if r & 1 != 0 then 0x1 else 0) | (if r1 & 1 != 0 then 0x2 else 0) | (if r2 & 1 != 0 then 0x8 else 0)
    | (if r3 & 1 != 0 then 0x80 else 0) | (if r4 & 1 != 0 then 0x8000 else 0)
    | (if r5 & 1 != 0 then 0x80000000 else 0) | (if r6 & 1 != 0 then 0x8000000000000000 else 0)
  }

  function Shift7(r: bv8): bv8 {
    Shift(Shift(Shift(Shift(Shift(Shift(Shift(r)))))))
  }

  /** The register after 7 i steps. */
  function RegisterTable(i: nat): bv8
    requires i < 24
  {
    match i
    case 0 => 0x01 case 1 => 0x80 case 2 => 0xd8 case 3 => 0x1a case 4 => 0xdf case 5 => 0x09
    case 6 => 0x35 case 7 => 0x4f case 8 => 0xca case 9 => 0x70 case 10 => 0x41 case 11 => 0xec
    case 12 => 0xd5 case 13 => 0xcd case 14 => 0x63 case 15 => 0xab case 16 => 0xaa case 17 => 0x2a
    case 18 => 0xf2 case 19 => 0xe8 case 20 => 0x37 case 21 => 0x3e case 22 => 0x0b
    case _ => 0x44
  }

  lemma Register7(t: nat)
    ensures Register(t + 7) == Shift7(Register(t))
  {
    hide Shift;
    assert Register(t + 2) == Shift(Shift(Register(t)));
    assert Register(t + 4) == Shift(Shift(Register(t + 2)));
    assert Register(t + 6) == Shift(Shift(Register(t + 4)));
  }

  lemma TableStep(i: nat)
    requires 0 < i < 24
    ensures RegisterTable(i) == Shift7(RegisterTable(i - 1))
  {
  }

  lemma {:induction false} RegisterAt(ir: nat)
    requires ir < 24
    ensures Register(7 * ir) == RegisterTable(ir)
  {
    hide Shift7, Shift, RegisterTable;
    if ir > 0 {
      RegisterAt(ir - 1);
      Register7(7 * (ir - 1));
      TableStep(ir);
    } else {
      TableStart();
    }
  }

  lemma TableStart()
    ensures RegisterTable(0) == 1
  {
  }

  lemma TableConstants1(ir: nat)
    requires 0 <= ir < 4
    ensures RC(ir) == ConstantFrom(RegisterTable(ir))
  {
    assert ConstantFrom(RegisterTable(0)) == RC(0);
    assert ConstantFrom(RegisterTable(1)) == RC(1);
    assert ConstantFrom(RegisterTable(2)) == RC(2);
    assert ConstantFrom(RegisterTable(3)) == RC(3);
  }

  lemma TableConstants2(ir: nat)
    requires 4 <= ir < 8
    ensures RC(ir) == ConstantFrom(RegisterTable(ir))
  {
    assert ConstantFrom(RegisterTable(4)) == RC(4);
    assert ConstantFrom(RegisterTable(5)) == RC(5);
    assert ConstantFrom(RegisterTable(6)) == RC(6);
    assert ConstantFrom(RegisterTable(7)) == RC(7);
  }

  lemma TableConstants3(ir: nat)
    requires 8 <= ir < 12
    ensures RC(ir) == ConstantFrom(RegisterTable(ir))
  {
    assert ConstantFrom(RegisterTable(8)) == RC(8);
    assert ConstantFrom(RegisterTable(9)) == RC(9);
    assert ConstantFrom(RegisterTable(10)) == RC(10);
    assert ConstantFrom(RegisterTable(11)) == RC(11);
  }

  lemma TableConstants4(ir: nat)
    requires 12 <= ir < 16
    ensures RC(ir) == ConstantFrom(RegisterTable(ir))
  {
    assert ConstantFrom(RegisterTable(12)) == RC(12);
    assert ConstantFrom(RegisterTable(13)) == RC(13);
    assert ConstantFrom(RegisterTable(14)) == RC(14);
    assert ConstantFrom(RegisterTable(15)) == RC(15);
  }

  lemma TableConstants5(ir: nat)
    requires 16 <= ir < 20
    ensures RC(ir) == ConstantFrom(RegisterTable(ir))
  {
    assert ConstantFrom(RegisterTable(16)) == RC(16);
    assert ConstantFrom(RegisterTable(17)) == RC(17);
    assert ConstantFrom(RegisterTable(18)) == RC(18);
    assert ConstantFrom(RegisterTable(19)) == RC(19);
  }

  lemma TableConstants6(ir: nat)
    requires 20 <= ir < 24
    ensures RC(ir) == ConstantFrom(RegisterTable(ir))
  {
    assert ConstantFrom(RegisterTable(20)) == RC(20);
    assert ConstantFrom(RegisterTable(21)) == RC(21);
    assert ConstantFrom(RegisterTable(22)) == RC(22);
    assert ConstantFrom(RegisterTable(23)) == RC(23);
  }

  /** Every round constant in the table is the one the shift register produces. */
  lemma ConstantsFollowTheRegister(ir: nat)
    requires ir < 24
    ensures RC(ir) == ConstantFrom(Register(7 * ir))
  {
    hide Register, RegisterTable, RC, ConstantFrom;
    RegisterAt(ir);
    if ir < 4 { TableConstants1(ir); } else if ir < 8 { TableConstants2(ir); }
    else if ir < 12 { TableConstants3(ir); } else if ir < 16 { TableConstants4(ir); }
    else if ir < 20 { TableConstants5(ir); } else { TableConstants6(ir); }
  }
}
