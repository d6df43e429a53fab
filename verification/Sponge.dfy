/** The streaming SHA3 of sqlite/shell.c (SHA3Init, SHA3Update, SHA3Final) against the sponge of
    section 4 of FIPS 202, on a little-endian machine. */
module Sponge {
  import Core
  import opened Keccak
  import opened KeccakInPlace

  type Byte = bv8

  // ---------------------------------------------------------------- bytes of a lane

  /** Byte j of a lane in memory: its bit i is bit 8*j + i of the lane (appendix B.1 of FIPS 202). */
  function ByteOf(l: Lane, j: nat): Byte
    requires j < 8
  {
    match j
    case 0 => (l.w & 0xff) as bv8
    case 1 => ((l.w >> 8) & 0xff) as bv8
    case 2 => ((l.w >> 16) & 0xff) as bv8
    case 3 => ((l.w >> 24) & 0xff) as bv8
    case 4 => ((l.w >> 32) & 0xff) as bv8
    case 5 => ((l.w >> 40) & 0xff) as bv8
    case 6 => ((l.w >> 48) & 0xff) as bv8
    case _ => ((l.w >> 56) & 0xff) as bv8
  }

  /** The lane whose byte j is b and whose other bytes are 0. */
  function Spread(b: Byte, j: nat): Lane
    requires j < 8
  {
    match j
    case 0 => Lane(b as bv64)
    case 1 => Lane(b as bv64 << 8)
    case 2 => Lane(b as bv64 << 16)
    case 3 => Lane(b as bv64 << 24)
    case 4 => Lane(b as bv64 << 32)
    case 5 => Lane(b as bv64 << 40)
    case 6 => Lane(b as bv64 << 48)
    case _ => Lane(b as bv64 << 56)
  }

  /** `x[j] ^= b` on byte j of a lane. */
  function XorByte(l: Lane, j: nat, b: Byte): Lane
    requires j < 8
  {
    Xor(l, Spread(b, j))
  }

  /** The lane loaded from up to eight bytes of memory, the missing ones being 0. */
  function Load(bs: seq<Byte>): Lane
    requires |bs| <= 8
  {
    if bs == [] then Lane(0) else XorByte(Load(bs[..|bs| - 1]), |bs| - 1, bs[|bs| - 1])
  }

  lemma XorByteAt0(l: Lane, b: Byte, i: nat)
    requires i < 8
    ensures ByteOf(XorByte(l, 0, b), i) == if i == 0 then ByteOf(l, i) ^ b else ByteOf(l, i)
  { }
  lemma XorByteAt1(l: Lane, b: Byte, i: nat)
    requires i < 8
    ensures ByteOf(XorByte(l, 1, b), i) == if i == 1 then ByteOf(l, i) ^ b else ByteOf(l, i)
  { }
  lemma XorByteAt2(l: Lane, b: Byte, i: nat)
    requires i < 8
    ensures ByteOf(XorByte(l, 2, b), i) == if i == 2 then ByteOf(l, i) ^ b else ByteOf(l, i)
  { }
  lemma XorByteAt3(l: Lane, b: Byte, i: nat)
    requires i < 8
    ensures ByteOf(XorByte(l, 3, b), i) == if i == 3 then ByteOf(l, i) ^ b else ByteOf(l, i)
  { }
  lemma XorByteAt4(l: Lane, b: Byte, i: nat)
    requires i < 8
    ensures ByteOf(XorByte(l, 4, b), i) == if i == 4 then ByteOf(l, i) ^ b else ByteOf(l, i)
  { }
  lemma XorByteAt5(l: Lane, b: Byte, i: nat)
    requires i < 8
    ensures ByteOf(XorByte(l, 5, b), i) == if i == 5 then ByteOf(l, i) ^ b else ByteOf(l, i)
  { }
  lemma XorByteAt6(l: Lane, b: Byte, i: nat)
    requires i < 8
    ensures ByteOf(XorByte(l, 6, b), i) == if i == 6 then ByteOf(l, i) ^ b else ByteOf(l, i)
  { }
  lemma XorByteAt7(l: Lane, b: Byte, i: nat)
    requires i < 8
    ensures ByteOf(XorByte(l, 7, b), i) == if i == 7 then ByteOf(l, i) ^ b else ByteOf(l, i)
  { }

  /** Xoring into byte j changes that byte and no other. */
  lemma XorByteAt(l: Lane, j: nat, b: Byte, i: nat)
    requires i < 8 && j < 8
    ensures ByteOf(XorByte(l, j, b), i) == if i == j then ByteOf(l, i) ^ b else ByteOf(l, i)
  {
    hide ByteOf, XorByte;
    if j == 0 { XorByteAt0(l, b, i); } else if j == 1 { XorByteAt1(l, b, i); } else if j == 2 { XorByteAt2(l, b, i); }
    else if j == 3 { XorByteAt3(l, b, i); } else if j == 4 { XorByteAt4(l, b, i); }
    else if j == 5 { XorByteAt5(l, b, i); }
    else if j == 6 { XorByteAt6(l, b, i); } else { XorByteAt7(l, b, i); }
  }

  lemma ZeroByte(i: nat)
    requires i < 8
    ensures ByteOf(Lane(0), i) == 0
  {
  }

  lemma XorWithZero(b: Byte)
    ensures 0 ^ b == b
  {
  }

  /** What is loaded from memory is what memory holds. */
  lemma {:induction false} LoadedBytes(bs: seq<Byte>, i: nat)
    requires |bs| <= 8 && i < 8
    ensures ByteOf(Load(bs), i) == if i < |bs| then bs[i] else 0
  {
    hide ByteOf, XorByte;
    if bs == [] {
      ZeroByte(i);
    } else {
      var n := |bs| - 1;
      LoadedBytes(bs[..n], i);
      XorByteAt(Load(bs[..n]), n, bs[n], i);
      XorWithZero(bs[n]);
    }
  }

  lemma XorAssoc(a: Lane, b: Lane, c: Lane)
    ensures Xor(a, Xor(b, c)) == Xor(Xor(a, b), c)
  {
  }

  lemma XorZero(a: Lane)
    ensures Xor(a, Lane(0)) == a
  {
  }

  lemma SpreadZero(j: nat)
    requires j < 8
    ensures Spread(0, j) == Lane(0)
  {
  }

  // ---------------------------------------------------------------- the sponge, block by block

  function Blank(): Lanes { seq(25, _ => Lane(0)) }

  function Least(a: nat, b: nat): nat { if a <= b then a else b }

  /** The bytes that fall into lane i. */
  function Window(bs: seq<Byte>, i: nat): (w: seq<Byte>)
    ensures |w| <= 8
  {
    bs[Least(8 * i, |bs|)..Least(8 * i + 8, |bs|)]
  }

  /** The state xored with a string of bytes followed by zeros: S + (P || 0...0). */
  function XorBlock(a: Lanes, bs: seq<Byte>): Lanes
    requires |bs| <= 200
  {
    seq(25, i requires 0 <= i < 25 => Xor(a[i], Load(Window(bs, i))))
  }

  function Permute(a: Lanes): Lanes { Rounds(a, 24) }

  /** Algorithm 8, steps 5 and 6: S := f(S + (P_i || 0^c)) for each block in turn. */
  function Absorb(a: Lanes, p: seq<Byte>, rate: nat): Lanes
    requires 0 < rate <= 200 && |p| % rate == 0
  {
    if p == [] then a
    else
      LastBlock(|p|, rate);
      Permute(XorBlock(Absorb(a, p[..|p| - rate], rate), p[|p| - rate..]))
  }

  lemma LastBlock(n: nat, rate: nat)
    requires 0 < rate && n % rate == 0 && n > 0
    ensures n >= rate && (n - rate) % rate == 0
  {
    assert n == n / rate * rate;
    ModIs(n - rate, rate, n / rate - 1, 0);
  }

  lemma ModIs(n: nat, rate: nat, q: int, t: nat)
    requires 0 < rate && t < rate && n == q * rate + t
    ensures n % rate == t && n / rate == q
  {
    var q', t' := n / rate, n % rate;
    assert n == q' * rate + t';
    assert (q - q') * rate == t' - t;
    if q > q' { assert (q - q') * rate >= rate by { MulAtLeast(q - q', rate); } }
    if q < q' { assert (q' - q) * rate >= rate by { MulAtLeast(q' - q, rate); } }
  }

  lemma MulAtLeast(k: nat, r: nat)
    requires k > 0
    ensures k * r >= r
  {
  }

  /** How many bytes complete the last block: at least one. */
  function Missing(n: nat, rate: nat): (q: nat)
    requires 0 < rate
    ensures q == rate - n % rate && (n + q) % rate == 0
  {
    ModIs(n + (rate - n % rate), rate, n / rate + 1, 0);
    rate - n % rate
  }

  /** Appendix B.2: the bytes that follow a message of n bytes. */
  function Padding(n: nat, rate: nat): (p: seq<Byte>)
    requires 0 < rate
    ensures |p| == Missing(n, rate)
  {
    if Missing(n, rate) == 1 then [0x86] else [0x06] + Zeros(Missing(n, rate) - 2) + [0x80]
  }

  function Zeros(k: nat): seq<Byte> { seq(k, _ => 0) }

  /** The first n bytes of the state. */
  function Squeeze(a: Lanes, n: nat): seq<Byte>
    requires n <= 200
  {
    seq(n, k requires 0 <= k < n => ByteOf(a[k / 8], k % 8))
  }

  /** KECCAK with the SHA-3 suffix: pad, absorb, squeeze once. */
  function Sha3(data: seq<Byte>, rate: nat, n: nat): (d: seq<Byte>)
    requires 0 < rate <= 200 && n <= rate
  {
    Squeeze(Absorb(Blank(), data + Padding(|data|, rate), rate), n)
  }

  // ---------------------------------------------------------------- the same, byte by byte

  /** The state and how many bytes of the current block are in it. */
  datatype Ctx = Ctx(s: Lanes, loaded: nat)

  function XorAt(a: Lanes, k: nat, b: Byte): Lanes
    requires k < 200
  {
    a[k / 8 := XorByte(a[k / 8], k % 8, b)]
  }

  /** One byte: xored in at the next position; a full block is permuted. */
  function Feed(c: Ctx, rate: nat, b: Byte): (r: Ctx)
    requires c.loaded < rate <= 200
    ensures r.loaded < rate
  {
    var s := XorAt(c.s, c.loaded, b);
    if c.loaded + 1 == rate then Ctx(Permute(s), 0) else Ctx(s, c.loaded + 1)
  }

  function FeedAll(c: Ctx, rate: nat, data: seq<Byte>): (r: Ctx)
    requires c.loaded < rate <= 200
    ensures r.loaded < rate
  {
    if data == [] then c else Feed(FeedAll(c, rate, data[..|data| - 1]), rate, data[|data| - 1])
  }

  /** However the input is cut, the pieces leave the state that the whole leaves. */
  lemma {:induction false} FeedSplit(c: Ctx, rate: nat, d: seq<Byte>, e: seq<Byte>)
    requires c.loaded < rate <= 200
    ensures FeedAll(c, rate, d + e) == FeedAll(FeedAll(c, rate, d), rate, e)
    decreases |e|
  {
    hide Feed;
    if e == [] {
      assert d + e == d;
    } else {
      var f := e[..|e| - 1];
      FeedSplit(c, rate, d, f);
      assert (d + e)[..|d + e| - 1] == d + f;
    }
  }

  lemma FeedNext(c: Ctx, rate: nat, data: seq<Byte>, i: nat)
    requires c.loaded < rate <= 200 && i < |data|
    ensures FeedAll(c, rate, data[..i + 1]) == Feed(FeedAll(c, rate, data[..i]), rate, data[i])
  {
    hide Feed;
    assert data[..i + 1][..i] == data[..i];
  }

  lemma FeedNone(c: Ctx, rate: nat, data: seq<Byte>)
    requires c.loaded < rate <= 200
    ensures FeedAll(c, rate, data[..0]) == c
  {
  }

  lemma FeedOne(c: Ctx, rate: nat, b: Byte)
    requires c.loaded < rate <= 200
    ensures FeedAll(c, rate, [b]) == Feed(c, rate, b)
  {
    hide Feed;
    assert [b][..0] == [];
  }

  // ---------------------------------------------------------------- the word path

  lemma SnocLoad(w: seq<Byte>, b: Byte)
    requires |w| < 8
    ensures Load(w + [b]) == XorByte(Load(w), |w|, b)
  {
    hide XorByte;
    assert (w + [b])[..|w|] == w;
  }

  lemma XorLoadSnoc(l: Lane, w: seq<Byte>, b: Byte)
    requires |w| < 8
    ensures Xor(l, Load(w + [b])) == XorByte(Xor(l, Load(w)), |w|, b)
  {
    hide Xor, Spread, Load;
    SnocLoad(w, b);
    XorAssoc(l, Load(w), Spread(b, |w|));
  }

  /** Up to seven bytes that start a lane and do not fill the block go into that lane. */
  lemma {:induction false} FeedIntoLane(c: Ctx, rate: nat, w: seq<Byte>)
    requires c.loaded < rate <= 200 && c.loaded % 8 == 0 && |w| < 8 && c.loaded + |w| < rate
    ensures var q := c.loaded / 8; FeedAll(c, rate, w) == Ctx(c.s[q := Xor(c.s[q], Load(w))], c.loaded + |w|)
    decreases |w|
  {
    hide Xor, XorByte, Permute, Load;
    var q := c.loaded / 8;
    if w == [] {
      assert Load(w) == Lane(0) by { EmptyLoad(); }
      XorZero(c.s[q]);
    } else {
      var n := |w| - 1;
      FeedIntoLane(c, rate, w[..n]);
      assert w == w[..n] + [w[n]];
      XorLoadSnoc(c.s[q], w[..n], w[n]);
      assert (c.loaded + n) / 8 == q && (c.loaded + n) % 8 == n;
    }
  }

  lemma EmptyLoad()
    ensures Load([]) == Lane(0)
  {
  }

  /** One 64-bit xor does what eight byte steps do. */
  lemma FeedWord(c: Ctx, rate: nat, w: seq<Byte>)
    requires c.loaded < rate <= 200 && c.loaded % 8 == 0 && rate % 8 == 0 && |w| == 8
    ensures var q := c.loaded / 8; var s := c.s[q := Xor(c.s[q], Load(w))];
      FeedAll(c, rate, w) == if c.loaded + 8 >= rate then Ctx(Permute(s), 0) else Ctx(s, c.loaded + 8)
  {
    hide Xor, XorByte, Permute, Load;
    var q := c.loaded / 8;
    FeedIntoLane(c, rate, w[..7]);
    assert w == w[..7] + [w[7]];
    XorLoadSnoc(c.s[q], w[..7], w[7]);
    assert (c.loaded + 7) / 8 == q && (c.loaded + 7) % 8 == 7;
    var s7 := c.s[q := Xor(c.s[q], Load(w[..7]))];
    assert s7[q := Xor(c.s[q], Load(w))] == c.s[q := Xor(c.s[q], Load(w))];
  }

  // ---------------------------------------------------------------- bytes make blocks

  lemma WindowSnoc(bs: seq<Byte>, b: Byte, i: nat)
    ensures Window(bs + [b], i) == if i == |bs| / 8 then Window(bs, i) + [b] else Window(bs, i)
    ensures i == |bs| / 8 ==> |Window(bs, i)| == |bs| % 8
  {
  }

  lemma XorBlockSnoc(a: Lanes, bs: seq<Byte>, b: Byte)
    requires |bs| < 200
    ensures XorBlock(a, bs + [b]) == XorAt(XorBlock(a, bs), |bs|, b)
  {
    hide Xor, XorByte, Load, Window;
    var v, w := XorBlock(a, bs + [b]), XorAt(XorBlock(a, bs), |bs|, b);
    forall i | 0 <= i < 25 ensures v[i] == w[i] {
      WindowSnoc(bs, b, i);
      if i == |bs| / 8 { XorLoadSnoc(a[i], Window(bs, i), b); }
    }
  }

  lemma XorBlockEmpty(a: Lanes)
    ensures XorBlock(a, []) == a
  {
    hide Xor;
    forall i | 0 <= i < 25 ensures XorBlock(a, [])[i] == a[i] {
      assert Window([], i) == [];
      XorZero(a[i]);
    }
  }

  lemma NextMod(n: nat, rate: nat)
    requires 0 < rate
    ensures (n + 1) % rate == if n % rate + 1 == rate then 0 else n % rate + 1
  {
    if n % rate + 1 == rate {
      ModIs(n + 1, rate, n / rate + 1, 0);
    } else {
      ModIs(n + 1, rate, n / rate, n % rate + 1);
    }
  }

  /** How many of n bytes lie in whole blocks. */
  function Whole(n: nat, rate: nat): (w: nat)
    requires 0 < rate
    ensures w <= n && w % rate == 0 && n - w == n % rate
  {
    assert n == n / rate * rate + n % rate;
    ModIs(n / rate * rate, rate, n / rate, 0);
    n / rate * rate
  }

  /** After any input the state is the sponge over its whole blocks, with the rest xored in. */
  ghost function Streamed(data: seq<Byte>, rate: nat): Ctx
    requires 0 < rate <= 200
  {
    Ctx(XorBlock(Absorb(Blank(), data[..Whole(|data|, rate)], rate), data[Whole(|data|, rate)..]), |data| % rate)
  }

  /** One more byte in the current block. */
  lemma StreamedMore(data: seq<Byte>, b: Byte, rate: nat)
    requires 0 < rate <= 200 && |data| % rate + 1 < rate
    ensures Streamed(data + [b], rate) == Feed(Streamed(data, rate), rate, b)
  {
    hide XorBlock, XorAt, Absorb, Whole;
    NextMod(|data|, rate);
    var n := Whole(|data|, rate);
    assert (data + [b])[..n] == data[..n] && (data + [b])[n..] == data[n..] + [b];
    XorBlockSnoc(Absorb(Blank(), data[..n], rate), data[n..], b);
  }

  /** The byte that completes a block. */
  lemma StreamedFull(data: seq<Byte>, b: Byte, rate: nat)
    requires 0 < rate <= 200 && |data| % rate + 1 == rate
    ensures Streamed(data + [b], rate) == Feed(Streamed(data, rate), rate, b)
  {
    hide XorBlock, XorAt, Permute, Whole;
    NextMod(|data|, rate);
    var n := Whole(|data|, rate);
    var all := data + [b];
    assert all[..n] == data[..n] && all[n..] == data[n..] + [b] && all[..|all|] == all && all[|all|..] == [];
    var a := Absorb(Blank(), data[..n], rate);
    XorBlockSnoc(a, data[n..], b);
    assert Absorb(Blank(), all, rate) == Permute(XorBlock(a, all[n..]));
    XorBlockEmpty(Absorb(Blank(), all, rate));
  }

  /** Byte by byte is block by block. */
  lemma {:induction false} FeedIsSponge(data: seq<Byte>, rate: nat)
    requires 0 < rate <= 200
    ensures FeedAll(Ctx(Blank(), 0), rate, data) == Streamed(data, rate)
    decreases |data|
  {
    if data == [] {
      XorBlockEmpty(Blank());
    } else {
      hide Feed, Streamed;
      var d, b := data[..|data| - 1], data[|data| - 1];
      FeedIsSponge(d, rate);
      assert data == d + [b];
      if |d| % rate + 1 < rate { StreamedMore(d, b, rate); } else { StreamedFull(d, b, rate); }
    }
  }

  // ---------------------------------------------------------------- the end of the input

  lemma FeedZero(c: Ctx, rate: nat)
    requires c.loaded + 1 < rate <= 200
    ensures Feed(c, rate, 0) == Ctx(c.s, c.loaded + 1)
  {
    hide Xor, Spread;
    SpreadZero(c.loaded % 8);
    XorZero(c.s[c.loaded / 8]);
  }

  /** Zero bytes inside a block only move the position. */
  lemma {:induction false} FeedZeros(c: Ctx, rate: nat, k: nat)
    requires c.loaded + k < rate <= 200
    ensures FeedAll(c, rate, Zeros(k)) == Ctx(c.s, c.loaded + k)
  {
    hide Feed;
    if k > 0 {
      FeedZeros(c, rate, k - 1);
      assert Zeros(k)[..k - 1] == Zeros(k - 1);
      FeedZero(Ctx(c.s, c.loaded + k - 1), rate);
    }
  }

  /** Skipping to the last byte of the block is feeding the padding. */
  lemma FeedPadding(c: Ctx, rate: nat, n: nat)
    requires c.loaded < rate <= 200 && n % rate == c.loaded
    ensures c.loaded == rate - 1 ==> FeedAll(c, rate, Padding(n, rate)) == Feed(c, rate, 0x86)
    ensures c.loaded != rate - 1 ==>
      FeedAll(c, rate, Padding(n, rate)) == Feed(Ctx(Feed(c, rate, 0x06).s, rate - 1), rate, 0x80)
  {
    hide XorAt, Permute;
    if c.loaded == rate - 1 {
      FeedOne(c, rate, 0x86);
    } else {
      var q := rate - c.loaded;
      var c1 := Feed(c, rate, 0x06);
      FeedOne(c, rate, 0x06);
      FeedZeros(c1, rate, q - 2);
      FeedSplit(c, rate, [0x06], Zeros(q - 2));
      FeedSplit(c, rate, [0x06] + Zeros(q - 2), [0x80]);
      FeedOne(Ctx(c1.s, rate - 1), rate, 0x80);
    }
  }

  lemma StreamedWhole(p: seq<Byte>, rate: nat)
    requires 0 < rate <= 200 && |p| % rate == 0
    ensures Streamed(p, rate) == Ctx(Absorb(Blank(), p, rate), 0)
  {
    hide XorBlock, Absorb, Whole;
    assert p[..|p|] == p && p[|p|..] == [];
    XorBlockEmpty(Absorb(Blank(), p, rate));
  }

  /** The state after the padding is the sponge's, and a new block has begun. */
  lemma PaddedIsAbsorbed(data: seq<Byte>, rate: nat)
    requires 0 < rate <= 200
    ensures (|data| + |Padding(|data|, rate)|) % rate == 0
    ensures FeedAll(Ctx(Blank(), 0), rate, data + Padding(|data|, rate)) ==
      Ctx(Absorb(Blank(), data + Padding(|data|, rate), rate), 0)
  {
    hide Streamed, FeedAll, Absorb, Padding;
    var p := data + Padding(|data|, rate);
    FeedIsSponge(p, rate);
    StreamedWhole(p, rate);
  }

  // ---------------------------------------------------------------- the padding, bit by bit

  predicate BitOfByte(b: Byte, i: bv3) { (b >> i) & 1 == 1 }

  function ByteBits(b: Byte): seq<bool> {
    [BitOfByte(b, 0), BitOfByte(b, 1), BitOfByte(b, 2), BitOfByte(b, 3),
     BitOfByte(b, 4), BitOfByte(b, 5), BitOfByte(b, 6), BitOfByte(b, 7)]
  }

  function Bits(bs: seq<Byte>): (r: seq<bool>)
    ensures |r| == 8 * |bs|
  {
    if bs == [] then [] else ByteBits(bs[0]) + Bits(bs[1..])
  }

  function ZeroBits(k: nat): seq<bool> { seq(k, _ => false) }

  lemma ByteBits06() ensures ByteBits(0x06) == [false, true, true] + ZeroBits(5) { }
  lemma ByteBits80() ensures ByteBits(0x80) == ZeroBits(7) + [true] { }
  lemma ByteBits86() ensures ByteBits(0x86) == [false, true, true] + ZeroBits(4) + [true] { }
  lemma ByteBits00() ensures ByteBits(0) == ZeroBits(8) { }

  lemma {:induction false} ZerosBits(k: nat)
    ensures Bits(Zeros(k)) == ZeroBits(8 * k)
  {
    hide ByteBits;
    if k > 0 {
      ZerosBits(k - 1);
      ByteBits00();
      assert Zeros(k)[1..] == Zeros(k - 1);
      assert ZeroBits(8) + ZeroBits(8 * (k - 1)) == ZeroBits(8 * k);
    }
  }

  lemma {:induction false} BitsSplit(a: seq<Byte>, b: seq<Byte>)
    ensures Bits(a + b) == Bits(a) + Bits(b)
    decreases |a|
  {
    hide ByteBits;
    if a == [] {
      assert a + b == b;
    } else {
      BitsSplit(a[1..], b);
      assert (a + b)[1..] == a[1..] + b;
    }
  }

  lemma BitsOne(b: Byte)
    ensures Bits([b]) == ByteBits(b)
  {
    hide ByteBits;
    assert [b][1..] == [];
  }

  /** Sections 5.1 and 6.1: the padding bytes are the suffix 01 followed by pad10*1, with the
      number of zeros that the standard prescribes. */
  lemma PaddingBits(n: nat, rate: nat) returns (zeros: nat)
    requires 0 < rate
    ensures Bits(Padding(n, rate)) == [false, true] + [true] + ZeroBits(zeros) + [true]
    ensures zeros < 8 * rate && (8 * n + 2 + 2 + zeros) % (8 * rate) == 0
  {
    hide ByteBits, Bits;
    var q := Missing(n, rate);
    zeros := 8 * q - 4;
    assert 8 * n + 4 + zeros == 8 * (n + q);
    assert n == n / rate * rate + n % rate;
    assert n + q == (n / rate + 1) * rate;
    assert 8 * ((n / rate + 1) * rate) == (n / rate + 1) * (8 * rate);
    ModIs(8 * (n + q), 8 * rate, n / rate + 1, 0);
    if q == 1 {
      BitsOne(0x86);
      ByteBits86();
      assert [false, true] + [true] + ZeroBits(4) + [true] == [false, true, true] + ZeroBits(4) + [true];
    } else {
      LongPaddingBits(q);
    }
  }

  lemma LongPaddingBits(q: nat)
    requires q >= 2
    ensures Bits([0x06] + Zeros(q - 2) + [0x80]) == [false, true] + [true] + ZeroBits(8 * q - 4) + [true]
  {
    hide ByteBits, Bits, Zeros;
    BitsSplit([0x06] + Zeros(q - 2), [0x80]);
    BitsSplit([0x06], Zeros(q - 2));
    BitsOne(0x06); BitsOne(0x80); ByteBits06(); ByteBits80(); ZerosBits(q - 2);
    assert ZeroBits(5) + ZeroBits(8 * (q - 2)) + ZeroBits(7) == ZeroBits(8 * q - 4);
    assert [false, true, true] + ZeroBits(5) + ZeroBits(8 * (q - 2)) + (ZeroBits(7) + [true])
      == [false, true] + [true] + (ZeroBits(5) + ZeroBits(8 * (q - 2)) + ZeroBits(7)) + [true];
  }

  // ---------------------------------------------------------------- the context

  /** The rate that SHA3Init computes: the requested size rounded up to a multiple of 32 bits, or 256. */
  function RateFor(iSize: int): (r: nat)
    ensures 72 <= r <= 168 && r % 8 == 0
    ensures iSize in {224, 256, 384, 512} ==> 8 * r == 1600 - 2 * iSize && iSize / 8 <= r
  {
    if 128 <= iSize <= 512 then (1600 - (iSize + 31) / 32 * 32 * 2) / 8 else (1600 - 2 * 256) / 8
  }

  class SHA3Context {
    const s: array<Lane>
    var nRate: nat
    var nLoaded: nat

    ghost predicate Valid()
      reads this, s
    {
      s.Length == 25 && nLoaded < nRate <= 200 && nRate % 8 == 0
    }

    ghost function State(): Ctx
      requires Valid()
      reads this, s
    {
      Ctx(s[..], nLoaded)
    }

    /** SHA3Init. */
    constructor (iSize: int)
      ensures Valid() && fresh(s)
      ensures nRate == RateFor(iSize) && State() == Ctx(Blank(), 0)
    {
      s := new Lane[25](_ => Lane(0));
      nRate := RateFor(iSize);
      nLoaded := 0;
      new;
      assert s[..] == Blank();
    }

    /** The word path, from position 0 of the data. */
    method UpdateWords(aData: seq<Byte>) returns (i: nat)
      requires Valid() && nLoaded % 8 == 0
      modifies this`nLoaded, s
      ensures Valid() && i <= |aData|
      ensures State() == FeedAll(old(State()), nRate, aData[..i])
    {
      hide Xor, Load, Permute, Feed;
      ghost var was := State();
      i := 0;
      assert aData[..0] == [];
      while i + 7 < |aData|
        invariant Valid() && nLoaded % 8 == 0 && i <= |aData|
        invariant State() == FeedAll(was, nRate, aData[..i])
      {
        ghost var c := State();
        var w := aData[i..i + 8];
        FeedWord(c, nRate, w);
        FeedSplit(was, nRate, aData[..i], w);
        assert aData[..i + 8] == aData[..i] + w;
        s[nLoaded / 8] := Xor(s[nLoaded / 8], Load(w));
        assert s[..] == c.s[c.loaded / 8 := Xor(c.s[c.loaded / 8], Load(w))];
        nLoaded := nLoaded + 8;
        if nLoaded >= nRate {
          KeccakStep();
          nLoaded := 0;
        }
        i := i + 8;
      }
    }

    method KeccakStep()
      requires s.Length == 25
      modifies s
      ensures s[..] == Permute(old(s[..]))
    {
      hide Rounds;
      KeccakF1600Step(s);
    }

    /** SHA3Update: any data, at any address. */
    method Update(aData: seq<Byte>, aligned: bool)
      requires Valid()
      modifies this`nLoaded, s
      ensures Valid() && State() == FeedAll(old(State()), nRate, aData)
    {
      hide Xor, Load, Permute, XorByte, FeedAll;
      ghost var was := State();
      var i := 0;
      FeedNone(was, nRate, aData);
      if nLoaded % 8 == 0 && aligned {
        i := UpdateWords(aData);
      }
      while i < |aData|
        invariant Valid() && i <= |aData|
        invariant State() == FeedAll(was, nRate, aData[..i])
      {
        ghost var c := State();
        FeedNext(was, nRate, aData, i);
        s[nLoaded / 8] := XorByte(s[nLoaded / 8], nLoaded % 8, aData[i]);
        assert s[..] == XorAt(c.s, c.loaded, aData[i]);
        nLoaded := nLoaded + 1;
        if nLoaded == nRate {
          KeccakStep();
          nLoaded := 0;
        }
        i := i + 1;
      }
      assert aData[..|aData|] == aData;
    }

    /** SHA3Final: the hash of everything fed since the beginning, whatever the pieces were. */
    method Final(ghost data: seq<Byte>) returns (hash: seq<Byte>)
      requires Valid() && State() == FeedAll(Ctx(Blank(), 0), nRate, data)
      modifies this`nLoaded, s
      ensures Valid() && hash == Sha3(data, nRate, nRate)
    {
      hide FeedAll, Feed, Absorb, Padding, ByteOf, Permute, XorAt;
      ghost var c := State();
      assert |data| % nRate == c.loaded by { FeedIsSponge(data, nRate); }
      FeedPadding(c, nRate, |data|);
      if nLoaded == nRate - 1 {
        FeedOne(c, nRate, 0x86);
        Update([0x86], true);
      } else {
        FeedOne(c, nRate, 0x06);
        Update([0x06], true);
        nLoaded := nRate - 1;
        FeedOne(State(), nRate, 0x80);
        Update([0x80], false);
      }
      FeedSplit(Ctx(Blank(), 0), nRate, data, Padding(|data|, nRate));
      PaddedIsAbsorbed(data, nRate);
      hash := [];
      for i := 0 to nRate
        invariant |hash| == i
        invariant forall k :: 0 <= k < i ==> hash[k] == ByteOf(s[k / 8], k % 8)
      {
        hash := hash + [ByteOf(s[i / 8], i % 8)];
      }
    }
  }

  /** What the SQL functions return: a blob, NULL, or an error. */
  datatype Hashed = Digest(bytes: seq<Byte>) | Nothing | BadSize | BadStatement

  predicate GoodSize(iSize: int) { iSize in {224, 256, 384, 512} }

  /** With one argument the size is 256. */
  function SizeOf(size: Core.Option<int>): int { if size.None? then 256 else size.value }

  /** sha3(X, SIZE) and sha3(X): one context, one update, the first SIZE bits. Any other size is refused, and the
      hash of NULL is NULL. */
  method Sha3Func(x: Core.Option<seq<Byte>>, aligned: bool, size: Core.Option<int>) returns (r: Hashed)
    ensures r == BadSize <==> !GoodSize(SizeOf(size))
    ensures r == Nothing <==> GoodSize(SizeOf(size)) && x == Core.None
    ensures GoodSize(SizeOf(size)) && x.Some? ==>
      r == Digest(Sha3(x.value, (1600 - 2 * SizeOf(size)) / 8, SizeOf(size) / 8))
  {
    hide Absorb, Padding, ByteOf, FeedAll;
    var iSize := if size.None? then 256 else size.value;
    if iSize != 224 && iSize != 256 && iSize != 384 && iSize != 512 {
      return BadSize;
    }
    if x.None? {
      return Nothing;
    }
    var cx := new SHA3Context(iSize);
    cx.Update(x.value, aligned);
    var hash := cx.Final(x.value);
    r := Digest(hash[..iSize / 8]);
  }
}
