/** Which frames the checksum accepts, and which corruptions it always rejects. */
module CrcStrength {
  import opened Crc

  // ---------------------------------------------------------------- acceptance

  lemma NoFeedback(y: bv16)
    requires Shift(y) <= 0x7fff
    ensures !Odd(y) && Half(y) == Shift(y)
  {
    if Odd(y) { ShiftOdd(y); } else { ShiftEven(y); }
  }

  lemma EvenAfterBit(c: bv16, b: bool)
    requires !Odd(Xor(c, Bit(b)))
    ensures Odd(c) == b && Half(Xor(c, Bit(b))) == Half(c)
  {
    if b {
      assert Half(Xor(c, 1)) == Half(c);
    } else {
      assert Half(Xor(c, 0)) == Half(c);
    }
  }

  /** At most 16 bits clear the register only if they are the register's own bits. */
  lemma {:induction false} FeedToZero(c: bv16, w: seq<bool>)
    requires |w| <= 16 && Feed(c, w) == 0
    ensures Small(c, |w|) && w == BitsOf(c, |w|)
    decreases |w|
  {
    if w != [] {
      var y := Xor(c, Bit(w[0]));
      FeedToZero(Shift(y), w[1..]);
      SmallBounded(Shift(y), |w| - 1);
      NoFeedback(y);
      EvenAfterBit(c, w[0]);
    }
  }

  lemma FeedOwnBits(c: bv16)
    ensures Feed(c, BitsOf(c, 16)) == 0
  {
    SmallBounded(c, 16);
    FeedBits(c, c, 16);
    assert Xor(c, c) == 0;
    ShiftsZero(16);
  }

  lemma MaskHalf(x: bv16, n: nat)
    requires 1 <= n <= 16
    ensures Odd(x & Ones(n)) == Odd(x) && Half(x & Ones(n)) == Half(x) & Ones(n - 1)
  {
  }

  lemma {:induction false} LowBits(x: bv16, n: nat)
    requires n <= 16
    ensures BitsOf(x & Ones(n), n) == BitsOf(x, n)
    decreases n
  {
    if n > 0 {
      MaskHalf(x, n);
      LowBits(Half(x), n - 1);
    }
  }

  function Halves(x: bv16, n: nat): bv16
    decreases n, x
  {
    if n == 0 then x else Halves(Half(x), n - 1)
  }

  lemma {:induction false} BitsSplit(x: bv16, m: nat, n: nat)
    ensures BitsOf(x, m + n) == BitsOf(x, m) + BitsOf(Halves(x, m), n)
    decreases m
  {
    if m > 0 { BitsSplit(Half(x), m - 1, n); }
  }

  lemma {:induction false} HalvesAdd(x: bv16, m: nat, n: nat)
    ensures Halves(x, m + n) == Halves(Halves(x, m), n)
    decreases m
  {
    if m > 0 { HalvesAdd(Half(x), m - 1, n); }
  }

  lemma TwoHalves(x: bv16)
    ensures Halves(x, 2) == x >> 2
  {
    assert Halves(x, 2) == Halves(Half(x), 1) == Half(Half(x));
  }

  lemma FourHalves(x: bv16)
    ensures Halves(x, 4) == x >> 4
  {
    HalvesAdd(x, 2, 2);
    TwoHalves(x);
    TwoHalves(Halves(x, 2));
  }

  lemma EightHalves(x: bv16)
    ensures Halves(x, 8) == x >> 8
  {
    HalvesAdd(x, 4, 4);
    FourHalves(x);
    FourHalves(x >> 4);
  }

  lemma WordLow(c: bv16)
    ensures Word(Low(c)) == c & Ones(8)
  {
  }

  lemma WordHigh(c: bv16)
    ensures Word(High(c)) == c >> 8
  {
  }

  lemma TrailerBits(c: bv16)
    ensures BitsOf(Word(Low(c)), 8) + BitsOf(Word(High(c)), 8) == BitsOf(c, 16)
  {
    BitsSplit(c, 8, 8);
    EightHalves(c);
    LowBits(c, 8);
    WordLow(c);
    WordHigh(c);
  }

  lemma SameBit(x: bv16, y: bv16)
    requires Odd(x) == Odd(y) && Half(x) == Half(y)
    ensures x == y
  {
  }

  lemma {:induction false} BitsInjective(x: bv16, y: bv16, n: nat)
    requires Small(x, n) && Small(y, n) && BitsOf(x, n) == BitsOf(y, n)
    ensures x == y
    decreases n
  {
    if n > 0 {
      assert BitsOf(x, n)[1..] == BitsOf(Half(x), n - 1);
      assert BitsOf(y, n)[1..] == BitsOf(Half(y), n - 1);
      assert BitsOf(x, n)[0] == BitsOf(y, n)[0];
      BitsInjective(Half(x), Half(y), n - 1);
      SameBit(x, y);
    }
  }

  lemma ByteBitsInjective(a: byte, b: byte)
    requires BitsOf(Word(a), 8) == BitsOf(Word(b), 8)
    ensures a == b
  {
    ByteIsSmall(a);
    ByteIsSmall(b);
    BitsInjective(Word(a), Word(b), 8);
  }

  lemma TrailerClears(c: bv16, lo: byte, hi: byte)
    ensures Feed(c, BitsOf(Word(lo), 8) + BitsOf(Word(hi), 8)) == 0 <==> lo == Low(c) && hi == High(c)
  {
    var u, v := BitsOf(Word(lo), 8), BitsOf(Word(hi), 8);
    TrailerBits(c);
    FeedOwnBits(c);
    if Feed(c, u + v) == 0 {
      FeedToZero(c, u + v);
      assert u == (u + v)[..8] && v == (u + v)[8..];
      ByteBitsInjective(lo, Low(c));
      ByteBitsInjective(hi, High(c));
    }
  }

  lemma FrameBitsTrailer(d: seq<byte>, lo: byte, hi: byte)
    ensures FrameBits(d + [lo, hi]) == FrameBits(d) + (BitsOf(Word(lo), 8) + BitsOf(Word(hi), 8))
  {
    var f := d + [lo];
    assert f[..|d|] == d;
    assert (f + [hi])[..|f|] == f;
    assert f + [hi] == d + [lo, hi];
  }

  lemma ValidIffTrailer(d: seq<byte>, lo: byte, hi: byte)
    requires |d| >= 2
    ensures ValidCrc(d + [lo, hi]) <==> lo == Low(Register(d)) && hi == High(Register(d))
  {
    var c := Register(d);
    assert (d + [lo, hi])[..|d|] == d;
    assert RtuOf(d)[|d|] == Low(c) && RtuOf(d)[|d| + 1] == High(c);
    assert (d + [lo, hi])[|d|] == lo && (d + [lo, hi])[|d| + 1] == hi;
  }

  lemma FeedFrame(d: seq<byte>, t: seq<bool>)
    ensures Feed(INIT, FrameBits(d) + t) == Feed(Register(d), t)
  {
    RegisterIsSerial(d);
    FeedConcat(INIT, FrameBits(d), t);
  }

  lemma ClearsIffTrailer(d: seq<byte>, lo: byte, hi: byte)
    ensures Feed(INIT, FrameBits(d + [lo, hi])) == 0 <==> lo == Low(Register(d)) && hi == High(Register(d))
  {
    FrameBitsTrailer(d, lo, hi);
    FeedFrame(d, BitsOf(Word(lo), 8) + BitsOf(Word(hi), 8));
    TrailerClears(Register(d), lo, hi);
  }

  lemma SplitTrailer(frame: seq<byte>) returns (d: seq<byte>, lo: byte, hi: byte)
    requires |frame| >= 4
    ensures |d| >= 2 && frame == d + [lo, hi]
  {
    var n := |frame|;
    d, lo, hi := frame[..n - 2], frame[n - 2], frame[n - 1];
  }

  lemma ValidIffClears(d: seq<byte>, lo: byte, hi: byte, frame: seq<byte>)
    requires |d| >= 2 && frame == d + [lo, hi]
    ensures ValidCrc(frame) <==> Feed(INIT, FrameBits(frame)) == 0
  {
    ValidIffTrailer(d, lo, hi);
    ClearsIffTrailer(d, lo, hi);
  }

  /** A frame is accepted exactly when the serial register run over all of it, checksum
      included, ends at zero. */
  lemma ValidIffRegisterClears(frame: seq<byte>)
    requires |frame| >= 4
    ensures ValidCrc(frame) <==> Feed(INIT, FrameBits(frame)) == 0
  {
    var d, lo, hi := SplitTrailer(frame);
    ValidIffClears(d, lo, hi, frame);
  }

  /** Whatever is sent is accepted. */
  lemma SentFramesAreValid(d: seq<byte>)
    requires |d| >= 2
    ensures ValidCrc(RtuOf(d))
  {
    assert RtuOf(d)[..|d|] == d;
  }

  // ---------------------------------------------------------------- corruption

  /** Where two bit strings of the same length differ. */
  function Diff(u: seq<bool>, v: seq<bool>): (e: seq<bool>)
    requires |u| == |v|
    ensures |e| == |u|
    ensures forall k :: 0 <= k < |e| ==> e[k] == (u[k] != v[k])
    decreases |u|
  {
    if u == [] then [] else [u[0] != v[0]] + Diff(u[1..], v[1..])
  }

  lemma XorAssoc(a: bv16, b: bv16, c: bv16)
    ensures Xor(Xor(a, b), c) == Xor(a, Xor(b, c)) && Xor(a, b) == Xor(b, a)
  {
  }

  lemma XorFour(a: bv16, b: bv16, p: bv16, q: bv16)
    ensures Xor(Xor(a, p), Xor(b, q)) == Xor(Xor(a, b), Xor(p, q))
  {
    XorAssoc(Xor(a, p), b, q);
    XorAssoc(a, p, b);
    XorAssoc(p, b, a);
    XorAssoc(a, b, p);
    XorAssoc(Xor(a, b), p, q);
  }

  lemma XorRegroup(a: bv16, b: bv16, p: bool, q: bool)
    ensures Xor(Xor(a, b), Bit(p != q)) == Xor(Xor(a, Bit(p)), Xor(b, Bit(q)))
  {
    XorFour(a, b, Bit(p), Bit(q));
    assert Xor(Bit(p), Bit(q)) == Bit(p != q);
  }

  lemma {:induction false} FeedLinear(a: bv16, b: bv16, u: seq<bool>, v: seq<bool>)
    requires |u| == |v|
    ensures Feed(Xor(a, b), Diff(u, v)) == Xor(Feed(a, u), Feed(b, v))
    decreases |u|
  {
    if u != [] {
      var x, y := Xor(a, Bit(u[0])), Xor(b, Bit(v[0]));
      XorRegroup(a, b, u[0], v[0]);
      ShiftLinear(x, y);
      assert Diff(u, v)[1..] == Diff(u[1..], v[1..]);
      FeedLinear(Shift(x), Shift(y), u[1..], v[1..]);
    }
  }

  /** The bits flipped on the way from frame f to frame g. */
  function Flips(f: seq<byte>, g: seq<byte>): (e: seq<bool>)
    requires |f| == |g|
    ensures |e| == 8 * |f|
  {
    Diff(FrameBits(f), FrameBits(g))
  }

  /** Only the flipped bits decide: a corrupted frame is accepted exactly when its flips alone
      bring an empty register back to zero. */
  lemma AcceptedIffFlipsClear(f: seq<byte>, g: seq<byte>)
    requires ValidCrc(f) && |g| == |f|
    ensures ValidCrc(g) <==> Feed(0, Flips(f, g)) == 0
  {
    ValidIffRegisterClears(f);
    ValidIffRegisterClears(g);
    FeedLinear(INIT, INIT, FrameBits(f), FrameBits(g));
    assert Xor(INIT, INIT) == 0;
    var r := Feed(INIT, FrameBits(g));
    assert Xor(0, r) == r;
  }

  lemma {:induction false} FrameBitsInjective(f: seq<byte>, g: seq<byte>)
    requires |f| == |g| && FrameBits(f) == FrameBits(g)
    ensures f == g
    decreases |f|
  {
    if f != [] {
      var n := |f| - 1;
      assert FrameBits(f)[..8 * n] == FrameBits(f[..n]) && FrameBits(f)[8 * n..] == BitsOf(Word(f[n]), 8);
      assert FrameBits(g)[..8 * n] == FrameBits(g[..n]) && FrameBits(g)[8 * n..] == BitsOf(Word(g[n]), 8);
      FrameBitsInjective(f[..n], g[..n]);
      ByteBitsInjective(f[n], g[n]);
      assert f == f[..n] + [f[n]] && g == g[..n] + [g[n]];
    }
  }

  lemma FlipsExist(f: seq<byte>, g: seq<byte>) returns (k: nat)
    requires |f| == |g| && f != g
    ensures k < |Flips(f, g)| && Flips(f, g)[k]
  {
    var u, v := FrameBits(f), FrameBits(g);
    if forall i :: 0 <= i < |Diff(u, v)| ==> !Diff(u, v)[i] {
      forall i | 0 <= i < |u| ensures u[i] == v[i] { assert !Diff(u, v)[i]; }
      FrameBitsInjective(f, g);
    }
    k :| k < |Flips(f, g)| && Flips(f, g)[k];
  }

  predicate NoneSet(bits: seq<bool>) { forall k :: 0 <= k < |bits| ==> !bits[k] }

  lemma {:induction false} ZeroBits(n: nat)
    ensures NoneSet(BitsOf(0, n))
    decreases n
  {
    assert Half(0) == 0 && !Odd(0);
    if n > 0 { ZeroBits(n - 1); }
  }

  // ---- an odd number of flips

  predicate OddlyMany(bits: seq<bool>)
    decreases |bits|
  {
    bits != [] && (bits[0] != OddlyMany(bits[1..]))
  }

  function SetBits(bits: seq<bool>): nat
    decreases |bits|
  {
    if bits == [] then 0 else (if bits[0] then 1 else 0) + SetBits(bits[1..])
  }

  lemma {:induction false} OddlyManyIsOdd(bits: seq<bool>)
    ensures OddlyMany(bits) <==> SetBits(bits) % 2 == 1
    decreases |bits|
  {
    if bits != [] { OddlyManyIsOdd(bits[1..]); }
  }

  /** The number of set bits among the n lowest bits of x is odd. */
  predicate Parity(x: bv16, n: nat) { OddlyMany(BitsOf(x, n)) }

  lemma {:induction false} OddlyManyDiff(u: seq<bool>, v: seq<bool>)
    requires |u| == |v|
    ensures OddlyMany(Diff(u, v)) == (OddlyMany(u) != OddlyMany(v))
    decreases |u|
  {
    if u != [] {
      assert Diff(u, v)[1..] == Diff(u[1..], v[1..]);
      OddlyManyDiff(u[1..], v[1..]);
    }
  }

  lemma HalfXor(a: bv16, b: bv16)
    ensures Half(Xor(a, b)) == Xor(Half(a), Half(b))
  {
  }

  lemma OddXor(a: bv16, b: bv16)
    ensures Odd(Xor(a, b)) == (Odd(a) != Odd(b))
  {
    XorBit(a & 1, b & 1, a, b);
  }

  lemma XorBit(p: bv16, q: bv16, a: bv16, b: bv16)
    requires p == a & 1 && q == b & 1
    ensures Xor(a, b) & 1 == Xor(p, q) && (p == 0 || p == 1) && (q == 0 || q == 1)
  {
  }

  lemma {:induction false} BitsOfXor(a: bv16, b: bv16, n: nat)
    ensures BitsOf(Xor(a, b), n) == Diff(BitsOf(a, n), BitsOf(b, n))
    decreases n
  {
    hide Odd, Half, Xor;
    if n > 0 {
      OddXor(a, b);
      HalfXor(a, b);
      BitsOfXor(Half(a), Half(b), n - 1);
      assert BitsOf(a, n)[1..] == BitsOf(Half(a), n - 1) && BitsOf(b, n)[1..] == BitsOf(Half(b), n - 1);
    }
  }

  lemma ParityXor(a: bv16, b: bv16)
    ensures Parity(Xor(a, b), 16) == (Parity(a, 16) != Parity(b, 16))
  {
    BitsOfXor(a, b, 16);
    OddlyManyDiff(BitsOf(a, 16), BitsOf(b, 16));
  }

  lemma {:induction false} ParityWider(x: bv16, n: nat)
    requires Small(x, n)
    ensures Parity(x, n + 1) == Parity(x, n)
    decreases n
  {
    assert BitsOf(x, n + 1)[1..] == BitsOf(Half(x), n);
    if n == 0 {
      assert !Odd(0);
    } else {
      assert BitsOf(x, n)[1..] == BitsOf(Half(x), n - 1);
      ParityWider(Half(x), n - 1);
    }
  }

  lemma ParityStep(x: bv16, n: nat)
    ensures Parity(x, n + 1) == (Odd(x) != Parity(Half(x), n))
  {
    assert BitsOf(x, n + 1)[1..] == BitsOf(Half(x), n);
  }

  lemma {:induction false} NoneIsEven(bits: seq<bool>)
    requires NoneSet(bits)
    ensures !OddlyMany(bits)
    decreases |bits|
  {
    if bits != [] { NoneIsEven(bits[1..]); }
  }

  lemma ParityEven(x: bv16, y: bv16, n: nat)
    requires !Odd(x) && Half(x) == y
    ensures Parity(x, n + 1) == Parity(y, n)
  {
    ParityStep(x, n);
  }

  lemma ParityOdd(x: bv16, y: bv16, n: nat)
    requires Odd(x) && Half(x) == y
    ensures Parity(x, n + 1) == !Parity(y, n)
  {
    ParityStep(x, n);
  }

  lemma TapParityTail()
    ensures !Parity(0x14, 5)
  {
    assert !Parity(0, 0);
    ParityOdd(1, 0, 0);
    ParityEven(2, 1, 1);
    ParityOdd(5, 2, 2);
    ParityEven(0xa, 5, 3);
    ParityEven(0x14, 0xa, 4);
  }

  lemma TapParityMiddle()
    ensures !Parity(0x280, 10)
  {
    TapParityTail();
    ParityEven(0x28, 0x14, 5);
    ParityEven(0x50, 0x28, 6);
    ParityEven(0xa0, 0x50, 7);
    ParityEven(0x140, 0xa0, 8);
    ParityEven(0x280, 0x140, 9);
  }

  /** 0xa001 has three bits: feeding back makes up for the bit shifted out. */
  lemma TapParity()
    ensures Parity(0xa001, 16)
  {
    TapParityMiddle();
    ParityEven(0x500, 0x280, 10);
    ParityEven(0xa00, 0x500, 11);
    ParityEven(0x1400, 0xa00, 12);
    ParityEven(0x2800, 0x1400, 13);
    ParityEven(0x5000, 0x2800, 14);
    ParityOdd(0xa001, 0x5000, 15);
  }

  lemma ParityShift(c: bv16)
    ensures Parity(Shift(c), 16) == Parity(c, 16)
  {
    var h := Half(c);
    SmallBounded(h, 15);
    ParityWider(h, 15);
    assert BitsOf(c, 16)[1..] == BitsOf(h, 15);
    if Odd(c) {
      ShiftOdd(c);
      assert Shift(c) == Xor(h, 0xa001);
      ParityXor(h, 0xa001);
      TapParity();
    } else {
      ShiftEven(c);
    }
  }

  lemma BitParity(b: bool)
    ensures Parity(Bit(b), 16) == b
  {
    ParityStep(Bit(b), 15);
    assert Half(1) == 0 && Half(0) == 0;
    ZeroBits(15);
    NoneIsEven(BitsOf(0, 15));
  }

  lemma {:induction false} FeedParity(c: bv16, w: seq<bool>)
    ensures Parity(Feed(c, w), 16) == (Parity(c, 16) != OddlyMany(w))
    decreases |w|
  {
    if w != [] {
      var y := Xor(c, Bit(w[0]));
      FeedParity(Shift(y), w[1..]);
      ParityShift(y);
      ParityXor(c, Bit(w[0]));
      BitParity(w[0]);
    }
  }

  /** A frame with an odd number of flipped bits is rejected. */
  lemma OddFlipsAreRejected(f: seq<byte>, g: seq<byte>)
    requires ValidCrc(f) && |g| == |f| && SetBits(Flips(f, g)) % 2 == 1
    ensures !ValidCrc(g)
  {
    OddlyManyIsOdd(Flips(f, g));
    AcceptedIffFlipsClear(f, g);
    FeedParity(0, Flips(f, g));
    BitParity(false);
  }

  // ---- a burst

  lemma {:induction false} FeedNone(c: bv16, w: seq<bool>)
    requires NoneSet(w)
    ensures Feed(c, w) == Shifts(c, |w|)
    decreases |w|
  {
    if w != [] {
      assert Xor(c, 0) == c;
      FeedNone(Shift(c), w[1..]);
    }
  }

  lemma FeedAround(pre: seq<bool>, w: seq<bool>, post: seq<bool>)
    requires NoneSet(pre) && NoneSet(post)
    ensures Feed(0, pre + w + post) == 0 <==> Feed(0, w) == 0
  {
    FeedConcat(0, pre + w, post);
    FeedConcat(0, pre, w);
    FeedNone(0, pre);
    ShiftsZero(|pre|);
    var x := Feed(0, w);
    FeedNone(x, post);
    ShiftsZero(|post|);
    if Shifts(x, |post|) == 0 { ShiftsInjective(x, 0, |post|); }
  }

  /** A frame whose flipped bits all lie within 16 consecutive transmitted bits is rejected. */
  lemma BurstsAreRejected(f: seq<byte>, g: seq<byte>, i: nat)
    requires ValidCrc(f) && |g| == |f| && g != f
    requires forall k :: 0 <= k < |Flips(f, g)| && Flips(f, g)[k] ==> i <= k < i + 16
    ensures !ValidCrc(g)
  {
    var e := Flips(f, g);
    var k := FlipsExist(f, g);
    var j := if i + 16 <= |e| then i + 16 else |e|;
    var pre, w, post := e[..i], e[i..j], e[j..];
    assert e == pre + w + post;
    AcceptedIffFlipsClear(f, g);
    FeedAround(pre, w, post);
    assert w[k - i];
    if Feed(0, w) == 0 {
      FeedToZero(0, w);
      ZeroBits(|w|);
    }
  }
}
