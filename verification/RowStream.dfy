/** The byte stream that sha3_query hashes (sqlite/shell.c: sha3QueryFunc): tagged segments with no
    delimiters between them. */
module RowStream {
  import opened Core
  import opened Keccak
  import opened Sponge

  type Bytes = seq<Byte>

  /** A column value; integers and floats by their 64 bits. */
  datatype Value = Null | Int(u: bv64) | Float(u: bv64) | Text(z: Bytes) | Blob(z: Bytes)

  /** A statement that was run: its text and its rows. */
  datatype Statement = Statement(sql: Bytes, rows: seq<seq<Value>>)

  const TAG_S: Byte := 0x53
  const TAG_R: Byte := 0x52
  const TAG_N: Byte := 0x4e
  const TAG_I: Byte := 0x49
  const TAG_F: Byte := 0x46
  const TAG_T: Byte := 0x54
  const TAG_B: Byte := 0x42
  const COLON: Byte := 0x3a

  // ---------------------------------------------------------------- numbers in text

  function DigitByte(d: nat): Byte
    requires d < 10
  {
    match d
    case 0 => 0x30 case 1 => 0x31 case 2 => 0x32 case 3 => 0x33 case 4 => 0x34
    case 5 => 0x35 case 6 => 0x36 case 7 => 0x37 case 8 => 0x38 case _ => 0x39
  }

  function DigitValue(b: Byte): Option<nat> {
    if b == 0x30 then Some(0) else if b == 0x31 then Some(1) else if b == 0x32 then Some(2)
    else if b == 0x33 then Some(3) else if b == 0x34 then Some(4) else if b == 0x35 then Some(5)
    else if b == 0x36 then Some(6) else if b == 0x37 then Some(7) else if b == 0x38 then Some(8)
    else if b == 0x39 then Some(9) else None
  }

  lemma DigitBack(d: nat)
    requires d < 10
    ensures DigitValue(DigitByte(d)) == Some(d) && DigitByte(d) != COLON
  {
  }

  /** %d of a size. */
  function Decimal(n: nat): Bytes {
    if n < 10 then [DigitByte(n)] else Decimal(n / 10) + [DigitByte(n % 10)]
  }

  function ReadNumber(s: Bytes, acc: nat): Option<(nat, Bytes)> {
    if s == [] then None
    else if s[0] == COLON then Some((acc, s[1..]))
    else match DigitValue(s[0])
      case None => None
      case Some(d) => ReadNumber(s[1..], 10 * acc + d)
  }

  lemma {:induction false} NumberShrinks(s: Bytes, acc: nat)
    ensures ReadNumber(s, acc).Some? ==> |ReadNumber(s, acc).value.1| < |s|
    decreases |s|
  {
    hide DigitValue;
    if s != [] && s[0] != COLON {
      match DigitValue(s[0])
      case None =>
      case Some(d) => NumberShrinks(s[1..], 10 * acc + d);
    }
  }

  /** Reading n's digits from 0 leaves n, with the rest still to be read. */
  lemma {:induction false} DecimalRead(n: nat, t: Bytes)
    ensures ReadNumber(Decimal(n) + t, 0) == ReadNumber(t, n)
    decreases n
  {
    hide DigitValue, DigitByte;
    if n < 10 {
      DigitBack(n);
      assert (Decimal(n) + t)[1..] == t;
    } else {
      DigitBack(n % 10);
      var u := [DigitByte(n % 10)] + t;
      assert Decimal(n) + t == Decimal(n / 10) + u;
      DecimalRead(n / 10, u);
      assert u[1..] == t;
    }
  }

  // ---------------------------------------------------------------- integers

  function LowByte(u: bv64): Byte { (u & 0xff) as bv8 }

  function DropByte(u: bv64): bv64 { u >> 8 }

  /** The value after k rounds of `u >>= 8`. */
  function Shifted(u: bv64, k: nat): bv64 {
    if k == 0 then u else DropByte(Shifted(u, k - 1))
  }

  lemma ShiftedByte(u: bv64, k: nat)
    requires k < 8
    ensures LowByte(Shifted(u, k)) == ByteOf(Lane(u), k)
  {
    hide Shifted;
    if k == 0 { ShiftedNone(u); }
    else if k == 1 { Shift1(u); }
    else if k == 2 { Shift2(u); }
    else if k == 3 { Shift3(u); }
    else if k == 4 { Shift4(u); }
    else if k == 5 { Shift5(u); }
    else if k == 6 { Shift6(u); }
    else { Shift7(u); }
  }

  lemma Shift1(u: bv64) ensures Shifted(u, 1) == u >> 8 { ShiftedNone(u); }
  lemma Shift2(u: bv64) ensures Shifted(u, 2) == u >> 16 { hide Shifted; Shift1(u); ShiftedMore(u, 1); Twice2(u); }
  lemma Shift3(u: bv64) ensures Shifted(u, 3) == u >> 24 { hide Shifted; Shift2(u); ShiftedMore(u, 2); Twice3(u); }
  lemma Shift4(u: bv64) ensures Shifted(u, 4) == u >> 32 { hide Shifted; Shift3(u); ShiftedMore(u, 3); Twice4(u); }
  lemma Shift5(u: bv64) ensures Shifted(u, 5) == u >> 40 { hide Shifted; Shift4(u); ShiftedMore(u, 4); Twice5(u); }
  lemma Shift6(u: bv64) ensures Shifted(u, 6) == u >> 48 { hide Shifted; Shift5(u); ShiftedMore(u, 5); Twice6(u); }
  lemma Shift7(u: bv64) ensures Shifted(u, 7) == u >> 56 { hide Shifted; Shift6(u); ShiftedMore(u, 6); Twice7(u); }
  lemma Twice2(u: bv64) ensures DropByte(u >> 8) == u >> 16 { }
  lemma Twice3(u: bv64) ensures DropByte(u >> 16) == u >> 24 { }
  lemma Twice4(u: bv64) ensures DropByte(u >> 24) == u >> 32 { }
  lemma Twice5(u: bv64) ensures DropByte(u >> 32) == u >> 40 { }
  lemma Twice6(u: bv64) ensures DropByte(u >> 40) == u >> 48 { }
  lemma Twice7(u: bv64) ensures DropByte(u >> 48) == u >> 56 { }

  /** Eight bytes, the most significant first. */
  function BigEndian(u: bv64): (s: Bytes)
    ensures |s| == 8
  {
    var l := Lane(u);
    [ByteOf(l, 7), ByteOf(l, 6), ByteOf(l, 5), ByteOf(l, 4), ByteOf(l, 3), ByteOf(l, 2), ByteOf(l, 1), ByteOf(l, 0)]
  }

  function FromBigEndian(s: Bytes): bv64
    requires |s| == 8
  {
    Load([s[7], s[6], s[5], s[4], s[3], s[2], s[1], s[0]]).w
  }

  lemma SameBytes(a: Lane, b: Lane)
    requires forall i :: 0 <= i < 8 ==> ByteOf(a, i) == ByteOf(b, i)
    ensures a == b
  {
    assert ByteOf(a, 0) == ByteOf(b, 0) && ByteOf(a, 1) == ByteOf(b, 1) && ByteOf(a, 2) == ByteOf(b, 2)
      && ByteOf(a, 3) == ByteOf(b, 3);
    assert ByteOf(a, 4) == ByteOf(b, 4) && ByteOf(a, 5) == ByteOf(b, 5) && ByteOf(a, 6) == ByteOf(b, 6)
      && ByteOf(a, 7) == ByteOf(b, 7);
  }

  lemma IntegerBack(u: bv64)
    ensures FromBigEndian(BigEndian(u)) == u
  {
    hide ByteOf, Load;
    var s := BigEndian(u);
    var bs := [s[7], s[6], s[5], s[4], s[3], s[2], s[1], s[0]];
    forall i | 0 <= i < 8 ensures ByteOf(Load(bs), i) == ByteOf(Lane(u), i) {
      LoadedBytes(bs, i);
    }
    SameBytes(Load(bs), Lane(u));
  }

  /** The loop that stores the bytes of u from index 8 down to 1, behind the tag. */
  method EightBytes(tag: Byte, v: bv64) returns (x: array<Byte>)
    ensures fresh(x) && x.Length == 9 && x[..] == [tag] + BigEndian(v)
  {
    hide ByteOf, Shifted, LowByte, DropByte;
    x := new Byte[9](_ => 0);
    var u := v;
    assert Shifted(v, 0) == v by { ShiftedNone(v); }
    var j := 8;
    while j >= 1
      invariant 0 <= j <= 8 && u == Shifted(v, 8 - j)
      invariant forall i :: j < i <= 8 ==> x[i] == ByteOf(Lane(v), 8 - i)
    {
      ShiftedByte(v, 8 - j);
      ShiftedMore(v, 8 - j);
      x[j] := LowByte(u);
      u := DropByte(u);
      j := j - 1;
    }
    x[0] := tag;
  }

  lemma ShiftedNone(u: bv64) ensures Shifted(u, 0) == u { }

  lemma ShiftedMore(u: bv64, k: nat) ensures Shifted(u, k + 1) == DropByte(Shifted(u, k)) { hide DropByte; }

  /** The stored order is the opposite of the one that the comment above sha3QueryFunc announces. */
  lemma IntegersAreBigEndian()
    ensures BigEndian(1) == [0, 0, 0, 0, 0, 0, 0, 1]
  {
  }

  // ---------------------------------------------------------------- the stream

  /** A tag, a size, a colon and that many bytes. */
  function Sized(tag: Byte, z: Bytes): (s: Bytes)
    ensures s != []
  {
    [tag] + (Decimal(|z|) + ([COLON] + z))
  }

  function EncodeValue(v: Value): (s: Bytes)
    ensures s != []
  {
    match v
    case Null => [TAG_N]
    case Int(u) => [TAG_I] + BigEndian(u)
    case Float(u) => [TAG_F] + BigEndian(u)
    case Text(z) => Sized(TAG_T, z)
    case Blob(z) => Sized(TAG_B, z)
  }

  function EncodeValues(vs: seq<Value>): Bytes {
    if vs == [] then [] else EncodeValue(vs[0]) + EncodeValues(vs[1..])
  }

  function EncodeRows(rows: seq<seq<Value>>): Bytes {
    if rows == [] then [] else [TAG_R] + (EncodeValues(rows[0]) + EncodeRows(rows[1..]))
  }

  /** The bytes hashed for a list of statements. */
  function Encode(ss: seq<Statement>): Bytes {
    if ss == [] then [] else Sized(TAG_S, ss[0].sql) + (EncodeRows(ss[0].rows) + Encode(ss[1..]))
  }

  // ---------------------------------------------------------------- reading it back

  /** The letters and the colon that the comment above sha3QueryFunc names, in ASCII. */
  lemma SegmentsInAscii(v: Value)
    ensures EncodeValue(v) == match v
      case Null => [0x4e]
      case Int(u) => [0x49] + BigEndian(u)
      case Float(u) => [0x46] + BigEndian(u)
      case Text(t) => [0x54] + (Decimal(|t|) + ([0x3a] + t))
      case Blob(t) => [0x42] + (Decimal(|t|) + ([0x3a] + t))
  {
    hide Decimal, BigEndian;
  }

  lemma DigitsInAscii(d: nat)
    requires d < 10
    ensures Decimal(d) == [[0x30, 0x31, 0x32, 0x33, 0x34, 0x35, 0x36, 0x37, 0x38, 0x39][d]]
  {
  }

  const SELECT_1: Bytes := [0x53, 0x45, 0x4c, 0x45, 0x43, 0x54, 0x20, 0x31]

  lemma TextOfOne()
    ensures Sized(TAG_S, SELECT_1) == [0x53, 0x38, 0x3a] + SELECT_1
  {
    assert Decimal(8) == [0x38];
  }

  lemma RowOfOne()
    ensures EncodeRows([[Int(1)]]) == [0x52, 0x49, 0, 0, 0, 0, 0, 0, 0, 1]
  {
    IntegersAreBigEndian();
    hide BigEndian;
    assert EncodeValues([Int(1)]) == [0x49, 0, 0, 0, 0, 0, 0, 0, 1] by { assert [Int(1)][1..] == []; }
    assert [[Int(1)]][1..] == [];
  }

  /** The stream of "SELECT 1": S8:SELECT 1, R, I and the eight bytes of 1. */
  lemma StreamOfOne()
    ensures Encode([Statement(SELECT_1, [[Int(1)]])]) ==
      [0x53, 0x38, 0x3a] + SELECT_1 + [0x52, 0x49, 0, 0, 0, 0, 0, 0, 0, 1]
  {
    TextOfOne();
    RowOfOne();
    hide Sized, EncodeRows;
    assert [Statement(SELECT_1, [[Int(1)]])][1..] == [];
  }

  function ReadSized(s: Bytes): (r: Option<(Bytes, Bytes)>)
    ensures r.Some? ==> |r.value.1| < |s|
  {
    NumberShrinks(s, 0);
    match ReadNumber(s, 0)
    case None => None
    case Some(p) => if p.0 <= |p.1| then Some((p.1[..p.0], p.1[p.0..])) else None
  }

  predicate IsValueTag(b: Byte) { b == TAG_N || b == TAG_I || b == TAG_F || b == TAG_T || b == TAG_B }

  function ReadValue(s: Bytes): (r: Option<(Value, Bytes)>)
    ensures r.Some? ==> |r.value.1| < |s|
  {
    if s == [] then None
    else if s[0] == TAG_N then Some((Null, s[1..]))
    else if s[0] == TAG_I then if |s| >= 9 then Some((Int(FromBigEndian(s[1..9])), s[9..])) else None
    else if s[0] == TAG_F then if |s| >= 9 then Some((Float(FromBigEndian(s[1..9])), s[9..])) else None
    else if s[0] == TAG_T then
      match ReadSized(s[1..]) case None => None case Some(p) => Some((Text(p.0), p.1))
    else if s[0] == TAG_B then
      match ReadSized(s[1..]) case None => None case Some(p) => Some((Blob(p.0), p.1))
    else None
  }

  /** As many values as follow. */
  function ReadValues(s: Bytes): (r: (seq<Value>, Bytes))
    ensures |r.1| <= |s|
    decreases |s|
  {
    match ReadValue(s)
    case None => ([], s)
    case Some(p) => var q := ReadValues(p.1); ([p.0] + q.0, q.1)
  }

  function ReadRows(s: Bytes): (r: (seq<seq<Value>>, Bytes))
    ensures |r.1| <= |s|
    decreases |s|
  {
    if s == [] || s[0] != TAG_R then ([], s)
    else
      var p := ReadValues(s[1..]);
      var q := ReadRows(p.1);
      ([p.0] + q.0, q.1)
  }

  function Decode(s: Bytes): seq<Statement>
    decreases |s|
  {
    if s == [] || s[0] != TAG_S then []
    else match ReadSized(s[1..])
      case None => []
      case Some(p) =>
        var q := ReadRows(p.1);
        [Statement(p.0, q.0)] + Decode(q.1)
  }

  lemma Slide<T>(s: seq<T>)
    requires s != []
    ensures s == [s[0]] + s[1..]
  {
  }

  lemma SizedBack(tag: Byte, z: Bytes, t: Bytes)
    ensures (Sized(tag, z) + t)[0] == tag && ReadSized((Sized(tag, z) + t)[1..]) == Some((z, t))
  {
    hide DigitValue, Decimal, ReadNumber;
    var u := [COLON] + (z + t);
    assert (Sized(tag, z) + t)[1..] == Decimal(|z|) + u;
    DecimalRead(|z|, u);
    assert u[1..] == z + t;
    assert ReadNumber(u, |z|) == Some((|z|, u[1..])) by { ColonEnds(u, |z|); }
    assert (z + t)[..|z|] == z && (z + t)[|z|..] == t;
  }

  lemma ColonEnds(u: Bytes, n: nat)
    requires u != [] && u[0] == COLON
    ensures ReadNumber(u, n) == Some((n, u[1..]))
  {
  }

  lemma ValueBack(v: Value, t: Bytes)
    ensures ReadValue(EncodeValue(v) + t) == Some((v, t))
  {
    hide BigEndian, FromBigEndian, Sized, ReadSized;
    var s := EncodeValue(v) + t;
    match v
    case Null => assert s[1..] == t;
    case Int(u) =>
      IntegerBack(u);
      assert s[1..9] == BigEndian(u) && s[9..] == t && s[0] == TAG_I;
    case Float(u) =>
      IntegerBack(u);
      assert s[1..9] == BigEndian(u) && s[9..] == t && s[0] == TAG_F;
    case Text(z) => SizedBack(TAG_T, z, t);
    case Blob(z) => SizedBack(TAG_B, z, t);
  }

  lemma NoValue(t: Bytes)
    requires t == [] || !IsValueTag(t[0])
    ensures ReadValue(t) == None
  {
  }

  lemma {:induction false} ValuesBack(vs: seq<Value>, t: Bytes)
    requires t == [] || !IsValueTag(t[0])
    ensures ReadValues(EncodeValues(vs) + t) == (vs, t)
    decreases |vs|
  {
    hide EncodeValue, ReadValue;
    if vs == [] {
      assert EncodeValues(vs) + t == t;
      NoValue(t);
    } else {
      var u := EncodeValues(vs[1..]) + t;
      assert EncodeValues(vs) + t == EncodeValue(vs[0]) + u;
      ValueBack(vs[0], u);
      ValuesBack(vs[1..], t);
      Slide(vs);
    }
  }

  lemma RowsStart(rows: seq<seq<Value>>, t: Bytes)
    requires t == [] || t[0] == TAG_S
    ensures EncodeRows(rows) + t == [] || !IsValueTag((EncodeRows(rows) + t)[0])
  {
    hide EncodeValues;
    if rows == [] { assert EncodeRows(rows) + t == t; }
  }

  lemma {:induction false} RowsBack(rows: seq<seq<Value>>, t: Bytes)
    requires t == [] || t[0] == TAG_S
    ensures ReadRows(EncodeRows(rows) + t) == (rows, t)
    decreases |rows|
  {
    hide EncodeValues, ReadValues;
    if rows == [] {
      assert EncodeRows(rows) + t == t;
    } else {
      var u := EncodeRows(rows[1..]) + t;
      var s := EncodeRows(rows) + t;
      assert s[0] == TAG_R && s[1..] == EncodeValues(rows[0]) + u;
      RowsStart(rows[1..], t);
      ValuesBack(rows[0], u);
      RowsBack(rows[1..], t);
      Slide(rows);
    }
  }

  lemma EncodeStart(ss: seq<Statement>)
    ensures Encode(ss) == [] || Encode(ss)[0] == TAG_S
  {
    hide Decimal, EncodeRows;
  }

  /** The stream determines the statements, their rows and the typed values in them. */
  lemma {:induction false} DecodeEncoded(ss: seq<Statement>)
    ensures Decode(Encode(ss)) == ss
    decreases |ss|
  {
    hide Sized, ReadSized, EncodeRows, ReadRows;
    if ss != [] {
      var t := Encode(ss[1..]);
      var u := EncodeRows(ss[0].rows) + t;
      assert Encode(ss) == Sized(TAG_S, ss[0].sql) + u;
      SizedBack(TAG_S, ss[0].sql, u);
      Slide(ss);
      EncodeStart(ss[1..]);
      RowsBack(ss[0].rows, t);
      DecodeEncoded(ss[1..]);
    }
  }

  lemma UniquelyDecodable(a: seq<Statement>, b: seq<Statement>)
    requires Encode(a) == Encode(b)
    ensures a == b
  {
    hide Encode, Decode;
    DecodeEncoded(a);
    DecodeEncoded(b);
  }

  // ---------------------------------------------------------------- hashing it

  /** Everything fed so far is `data`. */
  ghost predicate Fed(c: Ctx, rate: nat, data: Bytes) {
    0 < rate <= 200 && c == FeedAll(Ctx(Blank(), 0), rate, data)
  }

  lemma FedNone(rate: nat)
    requires 0 < rate <= 200
    ensures Fed(Ctx(Blank(), 0), rate, [])
  {
  }

  lemma FedMeans(c: Ctx, rate: nat, data: Bytes)
    requires Fed(c, rate, data)
    ensures 0 < rate <= 200 && c == FeedAll(Ctx(Blank(), 0), rate, data)
  {
  }

  lemma Truncated(data: Bytes, rate: nat, n: nat)
    requires 0 < rate <= 200 && n <= rate
    ensures |Sha3(data, rate, rate)| == rate && Sha3(data, rate, n) == Sha3(data, rate, rate)[..n]
  {
    hide Absorb, Padding, ByteOf;
  }

  /** One call of SHA3Update, wherever the piece lies in memory. */
  method Feed1(cx: SHA3Context, z: Bytes, ghost data: Bytes)
    requires cx.Valid() && Fed(cx.State(), cx.nRate, data)
    modifies cx`nLoaded, cx.s
    ensures cx.Valid() && Fed(cx.State(), cx.nRate, data + z)
  {
    hide FeedAll;
    FeedSplit(Ctx(Blank(), 0), cx.nRate, data, z);
    var aligned: bool := *;
    cx.Update(z, aligned);
  }

  /** hash_step_vformat of a tag and a size, then the bytes. */
  method FeedSized(cx: SHA3Context, tag: Byte, z: Bytes, ghost data: Bytes)
    requires cx.Valid() && Fed(cx.State(), cx.nRate, data)
    modifies cx`nLoaded, cx.s
    ensures cx.Valid() && Fed(cx.State(), cx.nRate, data + Sized(tag, z))
  {
    hide Fed, Decimal;
    var head := [tag] + Decimal(|z|) + [COLON];
    Feed1(cx, head, data);
    Feed1(cx, z, data + head);
    assert data + head + z == data + Sized(tag, z);
  }

  /** The switch over the column type. */
  method FeedValue(cx: SHA3Context, v: Value, ghost data: Bytes)
    requires cx.Valid() && Fed(cx.State(), cx.nRate, data)
    modifies cx`nLoaded, cx.s
    ensures cx.Valid() && Fed(cx.State(), cx.nRate, data + EncodeValue(v))
  {
    hide Fed, Sized, BigEndian;
    match v
    case Null => Feed1(cx, [TAG_N], data);
    case Int(u) =>
      var x := EightBytes(TAG_I, u);
      Feed1(cx, x[..], data);
    case Float(u) =>
      var x := EightBytes(TAG_F, u);
      Feed1(cx, x[..], data);
    case Text(z) => FeedSized(cx, TAG_T, z, data);
    case Blob(z) => FeedSized(cx, TAG_B, z, data);
  }

  lemma Together(a: Bytes, b: Bytes, c: Bytes)
    ensures a + (b + c) == a + b + c
  {
  }

  method FeedValues(cx: SHA3Context, vs: seq<Value>, ghost data: Bytes)
    requires cx.Valid() && Fed(cx.State(), cx.nRate, data)
    modifies cx`nLoaded, cx.s
    ensures cx.Valid() && Fed(cx.State(), cx.nRate, data + EncodeValues(vs))
  {
    hide Fed, EncodeValue;
    ghost var d := data;
    assert vs[0..] == vs;
    var i := 0;
    while i < |vs|
      invariant i <= |vs| && cx.Valid() && Fed(cx.State(), cx.nRate, d)
      invariant d + EncodeValues(vs[i..]) == data + EncodeValues(vs)
    {
      FeedValue(cx, vs[i], d);
      assert vs[i..][1..] == vs[i + 1..];
      Together(d, EncodeValue(vs[i]), EncodeValues(vs[i + 1..]));
      d := d + EncodeValue(vs[i]);
      i := i + 1;
    }
    assert d + EncodeValues(vs[i..]) == d;
  }

  method FeedRows(cx: SHA3Context, rows: seq<seq<Value>>, ghost data: Bytes)
    requires cx.Valid() && Fed(cx.State(), cx.nRate, data)
    modifies cx`nLoaded, cx.s
    ensures cx.Valid() && Fed(cx.State(), cx.nRate, data + EncodeRows(rows))
  {
    hide Fed, EncodeValues;
    ghost var d := data;
    assert rows[0..] == rows;
    var i := 0;
    while i < |rows|
      invariant i <= |rows| && cx.Valid() && Fed(cx.State(), cx.nRate, d)
      invariant d + EncodeRows(rows[i..]) == data + EncodeRows(rows)
    {
      Feed1(cx, [TAG_R], d);
      FeedValues(cx, rows[i], d + [TAG_R]);
      assert rows[i..][1..] == rows[i + 1..];
      Together(d, [TAG_R], EncodeValues(rows[i]) + EncodeRows(rows[i + 1..]));
      Together(d + [TAG_R], EncodeValues(rows[i]), EncodeRows(rows[i + 1..]));
      d := d + [TAG_R] + EncodeValues(rows[i]);
      i := i + 1;
    }
    assert d + EncodeRows(rows[i..]) == d;
  }

  /** What sqlite3_prepare_v2 makes of the next piece of the text: an error, a statement that would write, no
      statement (white space or a comment), or a query and its rows. */
  datatype Prepared = Fails | Writes | NoStatement | Query(run: Statement)

  predicate Refused(p: Prepared) { p.Fails? || p.Writes? }

  function Queries(ps: seq<Prepared>): seq<Statement> {
    if ps == [] then [] else (if ps[0].Query? then [ps[0].run] else []) + Queries(ps[1..])
  }

  /** The loop over the text: it stops at the first piece that is refused. */
  method FeedStatements(cx: SHA3Context, ps: seq<Prepared>) returns (ok: bool)
    requires cx.Valid() && Fed(cx.State(), cx.nRate, [])
    modifies cx`nLoaded, cx.s
    ensures cx.Valid()
    ensures ok <==> forall p :: p in ps ==> !Refused(p)
    ensures ok ==> Fed(cx.State(), cx.nRate, Encode(Queries(ps)))
  {
    hide Fed, Encode;
    ghost var d := [];
    FeedNothing();
    assert ps[0..] == ps && d + Encode(Queries(ps)) == Encode(Queries(ps));
    var i := 0;
    while i < |ps|
      invariant i <= |ps| && cx.Valid() && Fed(cx.State(), cx.nRate, d)
      invariant forall j :: 0 <= j < i ==> !Refused(ps[j])
      invariant d + Encode(Queries(ps[i..])) == Encode(Queries(ps))
    {
      if Refused(ps[i]) {
        assert ps[i] in ps;
        return false;
      }
      assert ps[i..][1..] == ps[i + 1..];
      if ps[i].Query? {
        FeedStatement(cx, ps[i].run, d);
        EncodeFirst(d, ps[i].run, Queries(ps[i + 1..]));
        d := d + EncodeOne(ps[i].run);
      } else {
        assert Queries(ps[i..]) == Queries(ps[i + 1..]);
      }
      i := i + 1;
    }
    assert d + Encode(Queries(ps[i..])) == d;
    return true;
  }

  function EncodeOne(s: Statement): Bytes { Sized(TAG_S, s.sql) + EncodeRows(s.rows) }

  lemma FeedNothing()
    ensures Encode([]) == []
  {
  }

  lemma EncodeFirst(d: Bytes, s: Statement, ss: seq<Statement>)
    ensures d + Encode([s] + ss) == d + EncodeOne(s) + Encode(ss)
  {
    hide EncodeRows, Sized;
    assert ([s] + ss)[1..] == ss;
    Together(d, Sized(TAG_S, s.sql), EncodeRows(s.rows) + Encode(ss));
    Together(d + Sized(TAG_S, s.sql), EncodeRows(s.rows), Encode(ss));
  }

  method FeedStatement(cx: SHA3Context, run: Statement, ghost data: Bytes)
    requires cx.Valid() && Fed(cx.State(), cx.nRate, data)
    modifies cx`nLoaded, cx.s
    ensures cx.Valid() && Fed(cx.State(), cx.nRate, data + EncodeOne(run))
  {
    hide Fed, EncodeRows, Sized;
    FeedSized(cx, TAG_S, run.sql, data);
    FeedRows(cx, run.rows, data + Sized(TAG_S, run.sql));
    assert data + Sized(TAG_S, run.sql) + EncodeRows(run.rows) == data + EncodeOne(run);
  }

  /** sha3_query: the SHA3 of the stream of all queries in the text, however its pieces were fed; an error when
      any piece is refused, and NULL for no text. */
  method Sha3Query(sql: Option<seq<Prepared>>, size: Option<int>) returns (r: Hashed)
    ensures r == BadSize <==> !GoodSize(SizeOf(size))
    ensures r == Nothing <==> GoodSize(SizeOf(size)) && sql == None
    ensures r == BadStatement <==> GoodSize(SizeOf(size)) && sql.Some? && exists p :: p in sql.value && Refused(p)
    ensures r.Digest? ==> r.bytes == Sha3(Encode(Queries(sql.value)), (1600 - 2 * SizeOf(size)) / 8, SizeOf(size) / 8)
  {
    hide Encode, Sha3, FeedAll, Fed, Queries;
    var iSize := if size.None? then 256 else size.value;
    if iSize != 224 && iSize != 256 && iSize != 384 && iSize != 512 {
      return BadSize;
    }
    if sql.None? {
      return Nothing;
    }
    var cx := new SHA3Context(iSize);
    FedNone(cx.nRate);
    var ok := FeedStatements(cx, sql.value);
    if !ok {
      return BadStatement;
    }
    ghost var stream := Encode(Queries(sql.value));
    FedMeans(cx.State(), cx.nRate, stream);
    var hash := cx.Final(stream);
    Truncated(stream, cx.nRate, iSize / 8);
    r := Digest(hash[..iSize / 8]);
  }
}
